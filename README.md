# Memory cards: a model of the server-side pairs game

This project models the core of a browser "memory" (pairs) card game written in PHP. The server
owns the board. A board is a list of cards, each with a type and a face-up flag. The client plays a
card by its position, and the server decides what happens:

- with no suit pending, the card opens a suit of its type;
- a card of the pending type continues the suit, which closes once no card of that type is left
  face-down; the party is won once no card at all is left face-down;
- a card of another type fails the suit: every card of the pending type is turned back face-down.

The client only ever sees a projection of the board in which face-down cards have no type.

The model covers:

- the game state (`App\GameState`): dealing, `reveal`, the board projection, the remaining-cards
  query and the getters;
- the game driver (`App\Game`): lazy loading, action dispatch and saving;
- the in-memory storage;
- the small router, route and request classes.

Modules, one per source file:

- `Wrappers` (wrappers.dfy): `Option`, `Result` and `Outcome`, for PHP's nullable values and
  exceptions.
- `GameRules` (game_rules.dfy): cards, the deck and the reveal transition as values. `Reveal` is
  the specification function that the class is proved against. The file also holds the lemmas
  about the transition and the projection `Project`.
- `GameStates` (game_state.dfy): the class `GameState`. Its board is a `seq<Tile>` field that
  `Reveal` updates in place. The loops of the source (`getRemainingCards`, `getBoard` and the
  flip-back `foreach` of `reveal`) are `while` loops with invariants.
- `GameStateScenarios` (game_state_scenarios.dfy): the unit-test scenarios of the game state,
  written as methods whose postconditions state the outcomes the tests assert.
- `GameStorage` (in_memory_storage.dfy): `InMemoryStorage`.
- `Games` (game.dfy): the driver `Game`. It has `Run` as written and `RunAsIntended` (see
  Findings).
- `GameScenarios` (game_scenarios.dfy): the driver's test scenarios and the request cycle
  "run, then save".
- `Routes` (route.dfy), `Routing` (router.dfy) and `Requests` (request.dfy): the support classes.

Naming:

- The card's `type` key is the field `kind`, its `reveal` key the field `faceUp`, and a route's
  `method` the field `httpMethod`, because `type`, `reveal` and `method` are Dafny keywords.
- A card type is an `int`.
- PHP `null` is `None` (or `Null` for request values).
- A thrown exception is a `Failure`/`Fail` value.

Randomness is a parameter. Every operation that can deal a board takes `random: nat -> nat`, and
`random(j)` is the draw used when position `j` is shuffled.

The code has no time limit and records no score. The constructor takes no argument and cannot
fail. `reveal` has no guard once the party is over: `GameRules.PlayContinuesAfterWin` shows a won
board being changed by two further reveals.

## Model

| member | source | states |
|---|---|---|
| `GameRules.DeckCounts` | app/GameState.php:74-111 | The unshuffled deck has 18 cards: two face-down cards of each type 0..8 and nothing else. |
| `GameRules.DealtBoard` | app/GameState.php:12 | Any permutation of the deck has 18 cards, all face-down with types in 0..8. Each type 0..8 occurs exactly twice and no other type occurs. |
| `GameRules.Reveal` | app/GameState.php:144-203 | The reveal transition. It never changes the board length or any card's type. `currentCard` becomes the played card's type. `hasFailed` holds iff a suit was pending and the card is of another type. `winner`/`partyOver` change only by both becoming true with no card left face-down. |
| `GameRules.RevealOpensSuit` | app/GameState.php:155-160 | With no suit pending, the played card's type becomes the pending suit and the card turns face-up. No other card and neither outcome flag changes. |
| `GameRules.RevealContinuesSuit` | app/GameState.php:164-183 | For a card of the pending type: the card turns face-up. The suit is cleared iff no card of that type is left face-down, so a run of three stays pending after two cards. `winner` and `partyOver` become true iff no card at all is left face-down. |
| `GameRules.RevealFailsSuit` | app/GameState.php:186-202 | For a card of another type: every card of the pending type turns face-down, whatever it showed. The played card and every other card are unchanged. The suit is cleared and `hasFailed` is set. |
| `GameRules.RevealKeepsConsistent` | app/GameState.php:149-200 | Reveal keeps three facts: `winner == partyOver`; a failed reveal leaves no suit pending; a pending suit is the current card's type. |
| `GameRules.RevealKeepsFair` | app/GameState.php:155-200 | On a board where every type occurs at least twice, reveal keeps an invariant: every type except the pending one is wholly face-up or wholly face-down, and a board with no card left face-down has been won. |
| `GameRules.DealIsFair` | app/GameState.php:59-136 | A new deal satisfies that invariant. So in a dealt game, a fully face-up board always has `winner` set. |
| `GameRules.PlayContinuesAfterWin` | app/GameState.php:144-203 | Nothing stops play after a win: on a won board, a card followed by a card of another type turns the first pair face-down, while `winner` and `partyOver` stay set. |
| `GameRules.LoneCardIsNeverWon` | app/GameState.php:155-160 | A type held by one card only (possible only through `overrideBoard`) is turned up by the opening branch, which never checks for a win: the board ends face-up without `winner`. |
| `GameRules.ProjectionLeaksNothing` | app/GameState.php:232-247 | Two boards have the same client view iff they have the same length, the same face-up flags and the same types on face-up cards. No face-down type can be read from the view. |
| `GameStates.Shuffle` | app/GameState.php:132 | For any random draws, the shuffled deck is a permutation of the input: same length, same multiset of cards. |
| `GameStates.GameState.constructor` | app/GameState.php:59-136 | A new state is a permutation of the deck. No suit is pending, no card has been played, and `winner`, `partyOver` and `hasFailed` are false. |
| `GameStates.GameState.Reveal` | app/GameState.php:144-203 | The new fields are exactly `GameRules.Reveal` of the old ones. The scalar invariant is kept. |
| `GameStates.GameState.FlipBack` | app/GameState.php:187-194 | The loop turns exactly the cards of the pending type face-down and leaves every other card as it was. |
| `GameStates.GameState.GetRemainingCards` | app/GameState.php:278-293 | Returns the positions of the face-down cards, of the given type when one is given. The positions are strictly ascending, and a position is listed iff its card qualifies. |
| `GameStates.NoRemainingKeys` | app/GameState.php:171-177 | The emptiness test on `getRemainingCards` holds iff no qualifying card is on the board. |
| `GameStates.GameState.GetBoard` | app/GameState.php:232-247 | Returns the projection of the board: same length and flags, face-up cards keep their type, face-down cards have none. The state is not modified. |
| `GameStates.GameState.Reset` | app/GameState.php:264-267 | Returns a new, freshly dealt state and leaves the current one untouched. |
| `GameStates.GameState.OverrideBoard` | app/GameState.php:322-327 | Replaces the board and leaves every other field unchanged. |
| `GameStates.GameState.IsWinner` | app/GameState.php:210-213 | Readable in any state. In a valid state, `isWinner` equals `isPartyOver`. |
| `GameStates.GameState.IsPartyOver` | app/GameState.php:220-223 | Readable in any state. In a valid state, a party is over only when it has been won. |
| `GameStates.GameState.HasFailed` | app/GameState.php:300-303 | Readable in any state. In a valid state, after a failed suit no suit is pending. |
| `GameStates.GameState.GetCurrentCard` | app/GameState.php:254-257 | Readable in any state. In a valid state with a suit pending, the current card is the suit's type. |
| `GameStateScenarios.RevealShowsCard` | tests/Unit/GameStateTest.php:14-20 | On any deal, card 12 shows face-up in the view after it is played. |
| `GameStateScenarios.BrokenPairIsHidden` | tests/Unit/GameStateTest.php:25-48 | Board [1,1,2]: after playing 0, card 0 shows. After playing 2, cards 0 and 2 are face-down and the reveal failed. |
| `GameStateScenarios.BrokenRunIsHidden` | tests/Unit/GameStateTest.php:53-81 | Board [1,1,1,2]: after playing 0 and 1, both show and suit 1 is still pending. After playing 3, cards 0, 1 and 3 are face-down. |
| `GameStateScenarios.PairIsSolved` | tests/Unit/GameStateTest.php:109-126 | Board [1,1]: after playing 0 and 1, both show and the party is won and over. |
| `GameStateScenarios.CurrentCardFollowsPlay` | tests/Unit/GameStateTest.php:131-150 | Board [1,2,3]: the current card is 1, then 2, then 3, through an opening, a failing and another opening reveal. |
| `GameStorage.InMemoryStorage.constructor` | app/GameStorage/InMemoryStorage.php:12 | A new storage holds nothing. |
| `GameStorage.InMemoryStorage.Get` | app/GameStorage/InMemoryStorage.php:19-22 | Returns the stored state (null before any `set`) and changes nothing. |
| `GameStorage.InMemoryStorage.Set` | app/GameStorage/InMemoryStorage.php:30-33 | The slot then holds exactly the given state. |
| `GameStorage.LastSetWins` | app/GameStorage/InMemoryStorage.php:19-33 | A new storage gives null. After `set(a)` it gives `a`, and after a later `set(b)` it gives `b`. |
| `Games.Game.constructor` | app/Game.php:37-41 | A driver over the given storage, with no state cached. |
| `Games.Game.GetState` | app/Game.php:68-83 | Returns the cached state when there is one. Otherwise it caches the stored state, or a fresh deal when storage is empty. Later calls return the same object, and storage is only read. |
| `Games.Game.Run` | app/Game.php:53-61 | Any other action fails with `GameActionNotFound`, loads nothing, and leaves the loaded state's contents as they were. "reveal" applies the reveal transition to the loaded state in place and returns that object. "reset" returns a fresh deal but leaves the loaded state cached and unchanged. |
| `Games.Game.RunAsIntended` | app/Game.php:53-61 | Same as `Run`, except that the fresh deal made by "reset" becomes the cached state. The previously loaded object's contents are left as they were. |
| `Games.Game.SaveState` | app/Game.php:91-103 | With nothing cached, fails with `EmptyGameState` and leaves storage untouched. Otherwise it stores exactly the cached state. |
| `GameScenarios.UnknownActionFails` | tests/Unit/GameTest.php:16-22 | An unknown action fails with `GameActionNotFound`, and nothing is cached or stored. |
| `GameScenarios.RevealThroughDriver` | tests/Unit/GameTest.php:28-34 | "reveal" 4 returns the cached state itself, and card 4 then shows in `getState()`'s view. |
| `GameScenarios.ResetKeepsPlayedCard` | tests/Unit/GameTest.php:39-46 | As written: after "reveal" 4 and "reset", the returned deal has card 4 face-down, but `getState()` still shows card 4 face-up. |
| `GameScenarios.ResetHidesPlayedCard` | tests/Unit/GameTest.php:39-46 | With the corrected dispatch, card 4 is face-down after "reset", as the test expects. |
| `GameScenarios.ResetIsNotSaved` | app/Http/Controllers/GameController.php:19-24 | In the run-then-save cycle: request 1 reveals 4 and request 2 resets. Request 3 still finds card 4 face-up, because the reset was never saved. |
| `GameScenarios.SaveWithoutStateFails` | app/Game.php:95-97 | Saving before anything is loaded fails with `EmptyGameState`, and nothing is stored. |
| `GameScenarios.SavedStateIsShared` | app/GameStorage/InMemoryStorage.php:32 | The storage keeps the object itself. After a save, a later reveal shows through the storage without another save. |
| `Routes.Route.Match` | app/Support/Router/Route.php:38-41 | A route matches a path iff the two strings have the same length and agree character by character (PHP's `===` on strings). |
| `Routes.MatchDependsOnPathOnly` | app/Support/Router/Route.php:38-41 | A route matches a path iff the path equals the route's own. Neither the method nor the callable plays a part. |
| `Routing.FirstMatch` | app/Support/Router/Router.php:55-63 | The position found is of a matching route with no matching route before it. When there is none, no route matches. |
| `Routing.FirstMatchAfterAppend` | app/Support/Router/Router.php:42-46 | Appending a route never changes the route that serves an already-served path. The new route serves a path only if no earlier route matches it and it does. |
| `Routing.FirstMatchIgnoresMethod` | app/Support/Router/Router.php:56 | Route lists with the same paths resolve every path to the same position, whatever their methods and callables. |
| `Routing.Router.constructor` | app/Support/Router/Router.php:12 | A new router has no routes. |
| `Routing.Router.Get` | app/Support/Router/Router.php:19-23 | Appends exactly one GET route at the end and keeps the earlier routes. |
| `Routing.Router.Post` | app/Support/Router/Router.php:30-34 | Appends exactly one POST route at the end and keeps the earlier routes. |
| `Routing.Router.AddRoute` | app/Support/Router/Router.php:42-46 | Appends the route after the existing ones. |
| `Routing.Router.GetRouteMatching` | app/Support/Router/Router.php:53-64 | Returns the first matching route in order of registration. Fails with `RouteNotFound(path)` iff no route matches. |
| `Routing.Router.GetRoutes` | app/Support/Router/Router.php:69-72 | Lists exactly the routes that `getRouteMatching` searches, in order of registration, without changing the router. |
| `Routing.OneRouteIsListed` | tests/Unit/Support/Router/RouterTest.php:14-23 | A router given one GET route for "/" lists one route with path "/", and lookup of "/" returns it. |
| `Requests.Request.Has` | app/Support/Request.php:99-102 | `has` is PHP's `isset`: the attribute is present and its value is not null. |
| `Requests.Request.Get` | app/Support/Request.php:109-116 | Returns the default or the stored attribute value. |
| `Requests.Request.Header` | app/Support/Request.php:78-82 | The lookup of `getHeader`: the stored header or the default. |
| `Requests.Request.GetHeader` | app/Support/Request.php:76-83 | As written, with the declared `: array`: returns normally only with an array, which is the header when it is set and the default otherwise. Any other value raises a `TypeError`. |
| `Requests.HeaderAgreesWithIsSet` | app/Support/Request.php:76-83 | A set header is returned whatever the default, and only an unset header falls back to the default. A string header makes `getHeader` raise. |
| `Requests.Request.GetMethod` | app/Support/Request.php:90-93 | As written: every call raises a `TypeError`, because no value passes both `getHeader`'s `: array` and `getMethod`'s `: string`. |
| `Requests.Request.Method` | app/Support/Request.php:90-93 | As evidently intended: a string REQUEST_METHOD header is returned as it is, and a missing header raises a `TypeError` (null is not a string). |
| `Requests.GetRequestMethod` | app/Support/Request.php:76-93 | For a request whose REQUEST_METHOD is "GET", `getMethod` as written raises, while the intended reading gives "GET". |
| `Requests.HasAgreesWithGet` | app/Support/Request.php:99-116 | `has(k)` iff `get(k)` with a null default is non-null. When `has(k)`, `get` returns the attribute whatever the default; otherwise it returns the default. |
| `Requests.NullAttributeIsUnset` | app/Support/Request.php:101 | An attribute present with a null value counts as not set (`isset`), so `get` returns the default. |
| `Requests.PresentAttributeIsReturned` | tests/Unit/Support/RequestTest.php:13-29 | A request with "testcase" => "present" has the attribute and returns "present". |

## Findings

| source | as written | input that shows it | evidently intended | confidence | as-written member | corrected member |
|---|---|---|---|---|---|---|
| app/Game.php:57 | `run("reset")` returns `getState()->reset()` but never assigns it to the cached state, so `getState()` and `saveState()` keep the old board. | `run("reveal", 4)`, then `run("reset")`, then `getState()->getBoard()[4]["reveal"]` is true. Over requests, the reset is never saved. | The new deal replaces the cached state, as tests/Unit/GameTest.php:39-46 asserts. | high; not executed | `GameScenarios.ResetKeepsPlayedCard` (on `Games.Game.Run`) | `GameScenarios.ResetHidesPlayedCard` (on `Games.Game.RunAsIntended`) |
| app/Support/Request.php:76 | `getHeader` is declared `: array`, but headers are strings, and `getMethod` (line 90) is declared `: string` over it. | Any request, e.g. REQUEST_METHOD = "GET": `getHeader` raises a `TypeError`. A missing header hands back the null default and raises too. An array would pass `getHeader` and fail `getMethod`'s `: string`. | `getHeader` returns the stored value (`mixed`), and `getMethod` returns "GET". | high; not executed | `Requests.Request.GetMethod` (with `Requests.GetRequestMethod`) | `Requests.Request.Method` (with `Requests.GetRequestMethod`) |

## Left out

- `GameState::getBoardHash` (app/GameState.php:310-313): a SHA-1 over the JSON encoding of the
  board. It is a foreign call and is not modelled.
- `GameStates.Shuffle`: PHP's `shuffle` is modelled as a Fisher–Yates pass over draws given as a
  parameter. Only "a permutation of the deck" is proved. Nothing is claimed about uniformity, so
  the test that two new boards differ (tests/Unit/GameStateTest.php:86-94) has no counterpart.
- `Games.Game.Run`: one `random` parameter serves every deal made during one call. A "reset" on an
  empty driver therefore deals its two boards from the same draws.
- `GameStates.GameState.Reveal`: the source does no bounds check, so the model requires
  `index < |board|`. PHP's behaviour for an out-of-range or non-integer index is not modelled
  (an undefined-key warning, a null type, and an entry added to the board).
- `Games.Game.Run`: `$with` is an untyped value in PHP, and the model takes a `nat` index.
  `reveal(int $cardIndex)` runs in PHP's default coercive mode. It accepts an integer, a numeric
  string such as "4" (the form a request parameter takes) or an integral float, and raises a
  `TypeError` only for null or a non-numeric value. Neither the coercion nor that error is
  modelled. The error case includes the HTTP controller's call
  (app/Http/Controllers/GameController.php:22), which passes no index and so hands `reveal` null.
- `GameStorage.InMemoryStorage.Set`: the method declares the return type `Storage` but returns
  nothing, which makes PHP raise a `TypeError` just after the state is stored. Through
  `saveState`, that happens on every save. The model returns normally after the store.
- `Requests.Request.Method`: this is the evidently intended `getMethod` (see Findings). Every
  caller of the as-written `getMethod` gets a `TypeError`.
- The unit tests write their boards with the key "card", while `reveal` reads "type". Run as
  written, every card of those boards reads as type null. The scenarios use the "type" key that
  the code reads.
- `App\GameStorage\SessionStorage` and the `Storage` interface are not part of this model. The
  session variant reads and writes `$_SESSION` through `serialize`/`unserialize`, which is I/O.
  The driver is modelled over `InMemoryStorage` only, and the default session storage of
  `Game::__construct` is not modelled.
- `Request::capture` (reads PHP's request globals), the HTTP response, the controllers,
  `public/index.php`, `helpers.php` and the score model (SQL through PDO and the clock) are
  plumbing and foreign calls. They are not part of this model.
- The fluent `return $this` of `reveal`, `overrideBoard` and the router's registration methods is
  not modelled: the methods return nothing, and the object they act on is the caller's.
- Exception messages and the HTTP status codes attached to them are not modelled. Only which error
  is raised is.
- `Route` and `Request` getters (`getPath`, `getMethod`, `getHeaders`) are the datatypes' fields.
  The callable of a route is a type parameter.

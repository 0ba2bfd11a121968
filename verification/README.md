# Cat service: store and routes

A model of the core of a small http4k cat service: an in-memory store of
cats kept in a mutable list (`CatService`), and the route table that turns
HTTP requests into calls on that store and its found/absent answers into
status codes (`CatService.api()`).

- `wrappers.dfy` — `Option`, standing for Kotlin's nullable results.
- `model.dfy` (module `Model`) — the `Cat` entity and the `CatDto` creation
  input as immutable datatypes; `NewCat` merges a DTO with the system-assigned
  id and instant; `DtoOf` projects a cat onto its client-writable fields.
- `service.dfy` (module `Service`) — the list operations as functions on
  `seq<Cat>` (`FirstIndex`, `Find`, `IndexOf` and `RemoveFirst` for Kotlin's
  `MutableList.remove(element)`, `AfterDelete`), lemmas about them, and the
  class `CatService` whose field `cats` is the list. `GetCat` is a linear
  scan proved to return the first match; `DeleteCat` finds, then removes what
  it found; `AddCat` appends.
- `api.dfy` (module `Api`) — requests (method, path segments, body),
  responses (status, body), the six-route table `Dispatch` and its inverse
  `Binding`, the pure specification `Serve` of one request against a store (through
  `ServeRoute` and one function per handler: `Lookup`, `Add`, `Delete`),
  the method `Handle` that calls the service's methods and is proved equal to
  `Serve`, and lemmas about status mapping and request sequences.

Modelling decisions:

- The clock and the id generator are not called: `AddCat`, `Serve` and
  `Handle` take `now` (what `clock.instant()` returns) and `newId` (what
  `UUID.randomUUID()` returns). `AddCat` accepts any id, as the source does;
  the properties that need a new id to be absent from the store say so
  with `Fresh`.
- `addCat` as written returns `Unit`, yet the POST handler and both test
  classes use its result as the created cat. The model returns the created cat.
- `Cat` has a `userId` field that `addCat` never supplies (the constructor
  call omits it). The model fills it with the placeholder `UnsetUserId` (the
  empty string).
- The test classes build the service differently from the class itself:
  `ApiTest.kt` passes a repository and a clock, and `ApiKotestTest.kt` passes
  a repository, a clock and an id generator; the class takes only a clock. The
  model follows the class, with the id passed in as above.
- The UUID parser (`UUID.fromString`, also behind the `Path.uuid()` lens) and
  the JSON decoder of `CatDto` are arbitrary functions in a `Codec` value, so
  every property holds whatever they accept or reject.
- `GET /v1/cats/{catId}` parses without a guard: an unparsable id escapes as an
  exception (`Thrown(MalformedId)`), not as a 4xx. The lens routes and the
  body lens throw a lens failure (`Thrown(LensFailure)`) instead. Neither is a
  response in this code; a 400 would need an http4k filter that is not installed.
- A (method, path) that matches no route gives `Unrouted`.
- The two "with lens" GET routes differ only in how the cat is serialised, so
  they are modelled alike.

## Model

| member | source | states |
|---|---|---|
| Model.NewCat | course-1/app/src/main/kotlin/org/example/service/CatService.kt:33-40 | the created cat has the given id and instant, the placeholder owner, and exactly the input's name, date of birth, breed and color |
| Model.DtoOf | course-1/app/src/main/kotlin/org/example/model/Cat.kt:7-22 | the DTO part of a cat carries its name, date of birth, breed and color: each DTO field has a same-named, same-typed field in Cat |
| Model.NewCatOfDtoOf | course-1/app/src/main/kotlin/org/example/model/Cat.kt:7-22 | every DTO field has a same-named, same-typed counterpart in Cat: a cat is rebuilt from its DTO part, id and instant |
| Model.CatEquality | course-1/app/src/main/kotlin/org/example/model/Cat.kt:7-15 | two cats are equal exactly when all seven fields are equal |
| Service.FirstIndex | course-1/app/src/main/kotlin/org/example/service/CatService.kt:14 | the position found is the first whose id matches, or the length when none matches |
| Service.Find | course-1/app/src/main/kotlin/org/example/service/CatService.kt:14 | absent exactly when no cat has the id; otherwise a stored cat with that id with no earlier match |
| Service.IndexOf | course-1/app/src/main/kotlin/org/example/service/CatService.kt:26 | the position of the first element equal to the given one, the length exactly when none is equal |
| Service.RemoveFirst | course-1/app/src/main/kotlin/org/example/service/CatService.kt:26 | removing an absent element changes nothing; removing a present one drops the first equal element and keeps the others in order |
| Service.RemoveFirstDropsOneCopy | course-1/app/src/main/kotlin/org/example/service/CatService.kt:26 | removing a present element shortens the list by one and takes exactly one copy of it out of the multiset |
| Service.AfterDelete | course-1/app/src/main/kotlin/org/example/service/CatService.kt:23-30 | the list after a delete: unchanged when no cat has the id, one shorter otherwise |
| Service.RemoveFirstAtFound | course-1/app/src/main/kotlin/org/example/service/CatService.kt:24-26 | removing the found cat by equality removes exactly the found position, since no earlier element equals it |
| Service.DeleteRemovesFound | course-1/app/src/main/kotlin/org/example/service/CatService.kt:23-30 | delete with no match leaves the list; with a match it removes the first matching position, keeps the others in order, length drops by one |
| Service.FindAppend | course-1/app/src/main/kotlin/org/example/service/CatService.kt:13-42 | after an append, a lookup gives the earlier match if there is one, else the appended cat if its id matches, else absence |
| Service.AddedIsFound | course-1/app/src/main/kotlin/org/example/service/CatService.kt:13-42 | a cat added under a fresh id is what a lookup of that id returns |
| Service.AddKeepsOtherLookups | course-1/app/src/main/kotlin/org/example/service/CatService.kt:13-42 | adding a cat leaves the lookup of every other id unchanged |
| Service.AddThenDeleteRestores | course-1/app/src/main/kotlin/org/example/service/CatService.kt:23-42 | deleting the id of a cat just added under a fresh id returns that cat and restores the list |
| Service.FindSkipsRemoved | course-1/app/src/main/kotlin/org/example/service/CatService.kt:24-26 | removing a position that holds another id does not change the lookup of an id |
| Service.DeleteKeepsOtherLookups | course-1/app/src/main/kotlin/org/example/service/CatService.kt:23-30 | deleting one id leaves the lookup of every other id unchanged |
| Service.DeleteRemovesUniqueId | course-1/app/src/main/kotlin/org/example/service/CatService.kt:23-30 | when ids are unique, the deleted id is absent afterwards |
| Service.AddFreshKeepsUnique | course-1/app/src/main/kotlin/org/example/service/CatService.kt:32-42 | adding under a fresh id keeps ids unique |
| Service.DeleteKeepsUnique | course-1/app/src/main/kotlin/org/example/service/CatService.kt:23-30 | deleting keeps ids unique |
| Service.CatService.constructor | course-1/app/src/main/kotlin/org/example/service/CatService.kt:9-11 | a new service holds no cats |
| Service.CatService.GetCat | course-1/app/src/main/kotlin/org/example/service/CatService.kt:13-15 | the linear scan returns the first cat with the id, or absence exactly when no cat has it; the store is not modified |
| Service.CatService.ListCats | course-1/app/src/main/kotlin/org/example/service/CatService.kt:17-21 | the result equals the current contents in insertion order and is a value, so it cannot alias the store |
| Service.CatService.DeleteCat | course-1/app/src/main/kotlin/org/example/service/CatService.kt:23-30 | returns the first matching cat or absence; absent leaves the list unchanged, found removes exactly that position |
| Service.CatService.AddCat | course-1/app/src/main/kotlin/org/example/service/CatService.kt:32-42 | appends exactly the created cat at the end, nothing before it changes, and returns it |
| Api.DispatchMatchesBinding | course-1/app/src/main/kotlin/org/example/api/CatApi.kt:26-80 | each route is selected by exactly its bound method and path and by no other request |
| Api.Dispatch | course-1/app/src/main/kotlin/org/example/api/CatApi.kt:27-79 | a selected route is bound to exactly the request method and path; /v1/cats with GET or POST always selects a route |
| Api.SamePathSelectedByMethod | course-1/app/src/main/kotlin/org/example/api/CatApi.kt:29-64 | the path /v1/cats lists on GET, creates on POST, and matches no route for other methods |
| Api.FoundOrNotFound | course-1/app/src/main/kotlin/org/example/api/CatApi.kt:39-40 | a found cat gives 200 with that cat as body; absence gives 404 with no body |
| Api.DeletedOrNotFound | course-1/app/src/main/kotlin/org/example/api/CatApi.kt:73-75 | a deleted cat gives 204, absence 404, both with no body |
| Api.Serve | course-1/app/src/main/kotlin/org/example/api/CatApi.kt:26-80 | a request is unrouted exactly when no route matches; unrouted requests, thrown faults and every GET leave the store unchanged |
| Api.ServeRoute | course-1/app/src/main/kotlin/org/example/api/CatApi.kt:27-79 | a routed request always reaches a handler; a handler that throws, and every GET handler, leave the store unchanged |
| Api.Lookup | course-1/app/src/main/kotlin/org/example/api/CatApi.kt:35-61 | a lookup handler never changes the store and throws its fault exactly when the id did not parse |
| Api.Add | course-1/app/src/main/kotlin/org/example/api/CatApi.kt:64-69 | the POST handler throws a lens failure and changes nothing for an undecodable body, and otherwise appends one cat after the unchanged store |
| Api.Delete | course-1/app/src/main/kotlin/org/example/api/CatApi.kt:71-76 | the DELETE handler throws a lens failure for an unparsable id, and otherwise shrinks the store by one exactly when the id is stored |
| Api.ServesBoundRoute | course-1/app/src/main/kotlin/org/example/api/CatApi.kt:27-79 | a request on a route's own method and path is served by that route's handler |
| Api.Handle | course-1/app/src/main/kotlin/org/example/api/CatApi.kt:26-80 | the handler's outcome and the store it leaves are those of the specification Serve |
| Api.ListIsOkWithContents | course-1/app/src/main/kotlin/org/example/api/CatApi.kt:29-32 | GET /v1/cats answers 200 with the whole store in order, also when empty, and changes nothing |
| Api.LookupStatus | course-1/app/src/main/kotlin/org/example/api/CatApi.kt:35-61 | each lookup route answers 200 with the found cat exactly when the id is stored, else 404 with no body; the store is unchanged |
| Api.MalformedIdIsThrown | course-1/app/src/main/kotlin/org/example/api/CatApi.kt:35-76 | an unparsable id throws from the unguarded route and a lens failure from the lens routes, and never touches the store |
| Api.CreateResponds | course-1/app/src/main/kotlin/org/example/api/CatApi.kt:64-69 | POST answers 201 (code 201) with the created cat (generated id, clock instant, input fields), appended once; an undecodable body throws and changes nothing |
| Api.DeleteStatus | course-1/app/src/main/kotlin/org/example/api/CatApi.kt:71-76 | DELETE answers 204 and removes the found position exactly when the id is stored, else 404 with the store unchanged |
| Api.GetIsReadOnly | course-1/app/src/main/kotlin/org/example/api/CatApi.kt:29-61 | a GET never changes the store and does not depend on the clock or the id generator, so repeating it gives the same outcome |
| Api.CreateThenGet | course-1/app/src/main/kotlin/org/example/api/CatApi.kt:35-69 | after a POST with a fresh id, each lookup route for that id answers 200 with the created cat, whose fields match the input |
| Api.NeverCreatedIsNotFound | course-1/app/src/main/kotlin/org/example/api/CatApi.kt:35-76 | an id never created answers 404 on every lookup route and on DELETE, with the store unchanged |
| Api.DeleteOnce | course-1/app/src/main/kotlin/org/example/api/CatApi.kt:71-76 | with unique ids, after a DELETE that answered 204, a GET or DELETE of the same id answers 404 |
| Api.CreateThenDelete | course-1/app/src/main/kotlin/org/example/api/CatApi.kt:64-76 | deleting the id a POST just created answers 204 and restores the store |
| Api.DeleteOfAdded | course-1/app/src/main/kotlin/org/example/api/CatApi.kt:71-76 | the DELETE handler on a cat just appended under a fresh id answers 204 and restores the store |
| Api.ServeKeepsUniqueIds | course-1/app/src/main/kotlin/org/example/api/CatApi.kt:26-80 | every request keeps ids unique when the generator's id is fresh |

## Left out

- The database-backed repository (`CatsRepository.kt`) and the SQL it runs are not part of this model; the in-memory list stands for the store.
- JSON encoding and decoding (Moshi, http4k body lenses) and UUID text parsing are abstract functions; the exact texts they accept are not modelled.
- A request path is the list of its non-empty segments after http4k trims leading and trailing slashes; that trimming, and paths with empty inner segments, are not modelled.
- http4k's path matching is modelled as exact segment comparison; its default responses for unmatched paths or methods (`Unrouted` here) and the 400 that a lens-failure filter would produce are not modelled, since no such filter is installed.
- `UUID.randomUUID()` and `Clock` are inputs, not computed; freshness of a random id is an assumption stated where it is needed.
- The calendar validity of `LocalDate` beyond month and day ranges is not modelled.
- Concurrent requests and the thread safety of the mutable list are not modelled.

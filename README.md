# GloryKing API: condition dispatch and response projection

This project models the request core of the GloryKing content API. That core is the
`ApiHandler` endpoints and the `ElementModule` they call.

Every endpoint does the same few steps:

1. It reads a discriminator, `by`, from the request's condition map. A missing `by` is `''`.
2. It forwards the request to a domain module, or answers error `2003` ("unrecognised
   request") by itself.
3. It passes a module error through.
4. It rewrites the returned records in place into fixed DTO shapes.
5. It hands the result to `apiResponse`.

`ElementModule` has two parts:

- **A read switch.** It sends `hot`, `hero` and `all` to three `ElementBase` queries. Any other
  `by` gets `[]`.
- **A write switch.** Its only case, `add`, runs the `AddElement` rules first. It starts a
  transaction only when the rules pass.

Files and modules:

- `values.dfy` (`Values`) holds the values that cross the boundary:
  - conditions, and `array_get`;
  - `ErrorMessage`;
  - the element, hero, hero-type and theme records;
  - PHP values and their truthiness;
  - module results: `Err`, `Coll` (a collection), `One`, `EmptyArr` (`[]`) and `Null`.
- `collaborators.dfy` (`Collaborators`) holds the code the core calls but that is not part of
  this model. Each piece is a function-valued field: `Helper::fullUrl`,
  `Helper::formatDurationTime`, the `ElementBase` queries, `HeroModule`, `ThemeModule`, the
  `AddElement` validator and `dbTransaction`. Every proved statement therefore holds for all
  of them.
- `element_module.dfy` (`ElementModule`) holds `getElements` as a function and
  `elementOperate` as a method over a `Store`. The `Store` records each transaction that was
  run and the writes its callback performed.
- `projection.dfy` (`Projection`) holds the DTO shapes and the pure inner `map` calls. It also
  holds `$collection->transform(...)` as `Transform`, a loop that rewrites a sequence one item
  at a time, in place.
- `api_handler.dfy` (`ApiHandler`) holds the endpoints. A `Response` pairs the outcome with
  the module calls made.
  - The three projecting endpoints are written twice. A pure function (`ElementList`,
    `HeroList`, `ThemeList`) gives the response. A method (`GetElementList`, `GetHeroList`,
    `GetThemeList`) runs the in-place transform and is proved equal to that function.
  - `getHeroTypeList`, `heroTypeOperate` and `heroOperate` are plain pass-throughs: pure
    functions that make one module call and wrap its result.
  - `elementOperate` is a method, because it calls the module's stateful `elementOperate`.
    Its ensures state the response and the unchanged store directly.

An outcome is one of three things:

- `Raw(m)`: the module's result came back without the envelope.
- `Wrapped(p)`: `p` went to `apiResponse`.
- `Crash`: a fatal error at run time.

Every read endpoint's result depends only on the condition and the collaborators. Two
identical read requests with no write in between therefore get identical DTOs. The model's
read queries do not see the `Store`, so it cannot say what a write in between would change.

The handler and the module disagree in three places. The model keeps each disagreement as
the code has it and proves what follows from it:

- `type` and `recommend` are forwarded, but the module answers them with `[]`. The handler then
  calls `transform` on a plain array, which is a fatal error (`TypeAndRecommendCrash`).
- `detail` always gets `[]` from the module, so nothing is projected and the payload is `[]`
  (`DetailIsAlwaysEmpty`).
- `add_play_num` and `add_raise_num` are forwarded, but `elementOperate` has no case for them.
  The answer is `null` and no transaction runs (`ApiHandler.ElementOperate`).

The endpoints do not follow one uniform policy. The model keeps each one as the code
writes it:

- Although a uniform envelope would suggest otherwise, `getElementList` returns a module error
  without `apiResponse`. `getHeroList` and `getThemeList` wrap it.
- `getHeroList` has no default branch. It never answers 2003 by itself and passes the module's
  result on unchanged for any other `by`.
- `elementOperate` in the module returns `null` for an unmatched `operate`, not an error.
- A hero's `image_url` has no empty default. The code always calls `fullUrl(getImageSrc())`.
- Every `detail` request yields `[]`, whether or not the element exists.

## Model

| member | source | states |
|---|---|---|
| `ElementModule.GetElements` | gloryKing/src/GloryKing/Module/ElementModule.php:26-45 | any `by` outside hot/hero/all, `''` included, yields `[]`; an error or a truthy result can only come from one of the three queries |
| `ElementModule.GetElementsFollowsTable` | gloryKing/src/GloryKing/Module/ElementModule.php:28-40 | the result is the selected base query applied to the unchanged condition, or `[]` when none is selected |
| `ElementModule.ReadQueriesDistinct` | gloryKing/src/GloryKing/Module/ElementModule.php:30-39 | hot, hero and all select three different base queries |
| `ElementModule.GetElementsReadsOnlySelectedQuery` | gloryKing/src/GloryKing/Module/ElementModule.php:29-44 | no query other than the selected one can affect a read |
| `ElementModule.ElementOperate` | gloryKing/src/GloryKing/Module/ElementModule.php:56-71 | `add` with failing rules returns the validator's error and runs no transaction; with passing rules returns `dbTransaction`'s result and logs exactly one transaction that adds the element once; any other `operate` returns null and changes nothing; validation gating of the log is preserved |
| `Projection.ElementDtos` | gloryking/src/GloryKing/Handler/ApiHandler.php:259-270 | a theme's elements map to element DTOs one for one, same length and order |
| `Projection.HeroDtos` | gloryking/src/GloryKing/Handler/ApiHandler.php:115-121 | a hero type's heroes map to hero DTOs one for one, same length and order |
| `Projection.ProjectAll` | gloryking/src/GloryKing/Handler/ApiHandler.php:43-54 | `transform` succeeds exactly when every item is the model the callback reads, and then keeps length and puts item k's projection at position k |
| `Projection.Transform` | gloryking/src/GloryKing/Handler/ApiHandler.php:105-127 | the item-by-item, in-place rewrite used by all four `transform` calls (lines 43, 105, 114, 254) leaves exactly what `ProjectAll` describes |
| `Projection.ElementDtoShape` | gloryking/src/GloryKing/Handler/ApiHandler.php:44-53 | an element DTO has exactly the eight keys; unique_id, hero_id, url, title, play_num and raise_num are copied; poster is `fullUrl(image.url)` or `''` without an image; duration is `formatDurationTime(duration)` |
| `Projection.NestedDtoShapes` | gloryking/src/GloryKing/Handler/ApiHandler.php:255-271 | hero, `type_hero` and theme DTOs have exactly their keys; a hero's image_url is always `fullUrl(getImageSrc())`; a theme without an image gets `''`; a theme's elements are its projected elements |
| `ApiHandler.TransformResult` | gloryking/src/GloryKing/Handler/ApiHandler.php:43-56 | `$response->transform(...)` then `apiResponse`, on whatever the module returned: a collection is rewritten in place as `Transformed` describes, and anything that is not a collection is a fatal error; used at lines 43, 105, 114 and 254 |
| `ApiHandler.GetElementList` | gloryking/src/GloryKing/Handler/ApiHandler.php:30-84 | running the endpoint, with its in-place transform, gives exactly the response `ElementList` describes |
| `ApiHandler.GetHeroList` | gloryking/src/GloryKing/Handler/ApiHandler.php:94-133 | running the endpoint gives exactly the response `HeroList` describes |
| `ApiHandler.GetThemeList` | gloryking/src/GloryKing/Handler/ApiHandler.php:245-281 | running the endpoint gives exactly the response `ThemeList` describes |
| `ApiHandler.ElementOperate` | gloryking/src/GloryKing/Handler/ApiHandler.php:220-235 | add_play_num/add_raise_num reach the module once and come back as wrapped null; any other `by` is wrapped 2003 with no call; the store never changes |
| `ApiHandler.ElementListUnknownBy` | gloryking/src/GloryKing/Handler/ApiHandler.php:78-83 | a missing `by`, or one outside type/hot/hero/recommend/all/detail, yields wrapped 2003 and no module call |
| `ApiHandler.ElementListRawIffModuleError` | gloryking/src/GloryKing/Handler/ApiHandler.php:39-42 | the response bypasses the envelope if and only if a read query returned an error, and then it is that error, unprojected |
| `ApiHandler.ElementListProjection` | gloryking/src/GloryKing/Handler/ApiHandler.php:39-56 | a read query's collection of elements comes back wrapped as element DTOs, with the same length, in the same order |
| `ApiHandler.TypeAndRecommendCrash` | gloryking/src/GloryKing/Handler/ApiHandler.php:34-43 | `type` and `recommend` call the module once with the condition and then fail at `transform` |
| `ApiHandler.DetailIsAlwaysEmpty` | gloryking/src/GloryKing/Handler/ApiHandler.php:57-77 | `detail` calls the module once with exactly {by: detail, unique_id: the request's or the default}, and `[]` goes to `apiResponse` unprojected |
| `ApiHandler.DetailBranchCases` | gloryking/src/GloryKing/Handler/ApiHandler.php:62-76 | in the detail branch an error is returned raw, a falsy result (null, `[]`, including an empty list array) is wrapped unchanged, and a single element is projected to its DTO |
| `ApiHandler.HeroListDispatch` | gloryking/src/GloryKing/Handler/ApiHandler.php:96-102 | the hero module is always called first and once; its error is wrapped; any `by` other than type_id/type_hero passes its result through; the endpoint never answers 2003 by itself and never bypasses the envelope |
| `ApiHandler.HeroListTypeId` | gloryking/src/GloryKing/Handler/ApiHandler.php:104-112 | a collection of heroes comes back wrapped as their hero DTOs, in order |
| `ApiHandler.HeroListTypeHero` | gloryking/src/GloryKing/Handler/ApiHandler.php:113-128 | a collection of hero types comes back as {name, hero} per type, in order, each type's heroes mapped in order |
| `ApiHandler.ThemeListDispatch` | gloryking/src/GloryKing/Handler/ApiHandler.php:247-253 | only `enabled` reaches the theme module, once; anything else is wrapped 2003 with no call; a module error is wrapped, never returned raw |
| `ApiHandler.ThemeListProjection` | gloryking/src/GloryKing/Handler/ApiHandler.php:254-272 | a collection of themes comes back as theme DTOs, same length and order |
| `ApiHandler.EnvelopePolicy` | gloryking/src/GloryKing/Handler/ApiHandler.php:143-195 | only getElementList can return a result without the envelope, and then only an error; getHeroList and getThemeList wrap module errors; getHeroTypeList, heroTypeOperate and heroOperate make one call each, always wrap, never crash, and answer 2003 only when their module did |
| `ApiHandler.AtMostOneModuleCall` | gloryking/src/GloryKing/Handler/ApiHandler.php:33-81 | getElementList and getThemeList make at most one module call, and none exactly when they answer 2003 by themselves |

## Left out

- `apiResponse`'s envelope format: the base `Handler` class is not part of this model, so
  `Wrapped(p)` only records the argument.
- The internals of `Helper::fullUrl` and `Helper::formatDurationTime`. They are parameters.
- The `ElementBase` queries, `addElement` and the persistence layer. Queries are parameters;
  `addElement` is recorded as a write inside a logged transaction.
- The atomicity of `dbTransaction`, a database and concurrency property. The model records
  only that the transaction ran and which writes its callback performed. Its result is a
  parameter.
- The `FormValidator` engine and the `AddElement` rules. They are a predicate and an error value.
- `\Log::info('add')`, which is logging I/O.
- `uploadImage` and `parseVideoUrl` (file upload and third-party URL resolution). The model
  does not cover them.
- The internals of `HeroModule` and `ThemeModule`, including any effects of `heroTypeOperate`
  and `heroOperate`. Their results are parameters.
- Atomic updates of `play_num` and `raise_num`. These files do not implement them.
- The order of keys inside a DTO. DTOs are maps, so the detail DTO's `url`-before-`hero_id`
  order is not captured.
- Conditions hold strings only. The `detail` branch's integer default `0` for `unique_id` is
  written `"0"`; the module never reads that key. PHP's loose `switch` comparison of
  non-string discriminators is not modelled.
- Wrong item kinds. An item that is not the model a callback reads, or a `transform` on
  anything but a collection, is modelled as `Crash`. For some such values PHP would instead
  emit a notice and carry on with null fields.

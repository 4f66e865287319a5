/** `GloryKing\Handler\ApiHandler`: each endpoint reads a discriminator, forwards to a domain
    module, passes errors through, projects records into DTOs and wraps the result with
    `apiResponse`. */
module ApiHandler {
  import opened Values
  import opened Collaborators
  import opened Projection
  import ElementModule

  /** What an endpoint returns: a module result handed back as it is, the argument given to
      `apiResponse`, or a fatal error at run time. */
  datatype Outcome = Raw(result: ModResult) | Wrapped(payload: ModResult) | Crash

  /** A call from the handler into a domain module. */
  datatype ModuleCall =
    | ElementsRead(condition: Condition)
    | ElementWrite(condition: Condition, operate: string)
    | HeroListRead(condition: Condition)
    | HeroTypesRead(condition: Condition)
    | HeroTypeWrite(condition: Condition, operate: string)
    | HeroWrite(condition: Condition, operate: string)
    | ThemeListRead(condition: Condition)

  /** An endpoint's outcome with the module calls it made, in order. */
  datatype Response = Response(outcome: Outcome, calls: seq<ModuleCall>)

  /** The `by` values `getElementList` forwards unchanged to `getElements`. */
  const ElementListBys: set<string> := {"type", "hot", "hero", "recommend", "all"}

  /** The `by` values `elementOperate` forwards. */
  const CounterBys: set<string> := {"add_play_num", "add_raise_num"}

  const Error2003: Outcome := Wrapped(Err(UnknownRequest))

  /** `$response->transform(...)` and then `apiResponse`: only a collection has `transform`,
      and every item must be the model the callback reads. */
  function Transformed(helper: Helper, shape: Shape, m: ModResult): Outcome
  {
    match m
    case Coll(items) =>
      (match ProjectAll(helper, shape, items)
       case Some(dtos) => Wrapped(Coll(dtos))
       case None => Crash)
    case _ => Crash
  }

  /** The condition the `detail` branch builds for the module. */
  function DetailCondition(c: Condition): Condition
  {
    map["by" := "detail", "unique_id" := ArrayGet(c, "unique_id", "0")]
  }

  /** The `detail` branch after the module call: an error goes back as it is, a falsy result
      goes to `apiResponse` unchanged, a truthy one is projected as a single element. */
  function DetailBranch(helper: Helper, m: ModResult): Outcome
  {
    if IsError(m) then Raw(m)
    else if !Truthy(m) then Wrapped(m)
    else
      match m
      case One(v) =>
        (match ProjectItem(helper, ElementShape, v)
         case Some(dto) => Wrapped(One(dto))
         case None => Crash)
      case _ => Crash
  }

  /** `getElementList`. */
  function ElementList(env: Env, c: Condition): Response
  {
    var disc := By(c);
    if disc in ElementListBys then
      var m := ElementModule.GetElements(env.elementBase, c);
      Response(if IsError(m) then Raw(m) else Transformed(env.helper, ElementShape, m), [ElementsRead(c)])
    else if disc == "detail" then
      var dc := DetailCondition(c);
      Response(DetailBranch(env.helper, ElementModule.GetElements(env.elementBase, dc)), [ElementsRead(dc)])
    else
      Response(Error2003, [])
  }

  /** `getHeroList`: the module is called first; `type_id` and `type_hero` are projected and
      every other `by` is passed on as it is. */
  function HeroList(env: Env, c: Condition): Response
  {
    var m := env.heroModule.getHeroList(c);
    var calls := [HeroListRead(c)];
    if IsError(m) then Response(Wrapped(m), calls)
    else
      var disc := By(c);
      if disc == "type_id" then Response(Transformed(env.helper, HeroShape, m), calls)
      else if disc == "type_hero" then Response(Transformed(env.helper, HeroTypeShape, m), calls)
      else Response(Wrapped(m), calls)
  }

  /** `getThemeList`: only `enabled` is answered. */
  function ThemeList(env: Env, c: Condition): Response
  {
    if By(c) == "enabled" then
      var m := env.themeModule.getThemeList(c);
      Response(if IsError(m) then Wrapped(m) else Transformed(env.helper, ThemeShape, m), [ThemeListRead(c)])
    else
      Response(Error2003, [])
  }

  /** `getHeroTypeList`. */
  function HeroTypeList(env: Env, c: Condition): Response
  {
    Response(Wrapped(env.heroModule.getAllHeroType(c)), [HeroTypesRead(c)])
  }

  /** `heroTypeOperate`. */
  function HeroTypeOperate(env: Env, c: Condition, operate: string): Response
  {
    Response(Wrapped(env.heroModule.heroTypeOperate(c, operate)), [HeroTypeWrite(c, operate)])
  }

  /** `heroOperate`. */
  function HeroOperate(env: Env, c: Condition, operate: string): Response
  {
    Response(Wrapped(env.heroModule.heroOperate(c, operate)), [HeroWrite(c, operate)])
  }

  /** A transform step as the endpoints run it, rewriting the collection in place. */
  method TransformResult(helper: Helper, shape: Shape, m: ModResult) returns (o: Outcome)
    ensures o == Transformed(helper, shape, m)
  {
    if !m.Coll? {
      return Crash;
    }
    var r := Transform(helper, shape, m.items);
    if r.None? {
      return Crash;
    }
    return Wrapped(Coll(r.value));
  }

  method GetElementList(env: Env, c: Condition) returns (resp: Response)
    ensures resp == ElementList(env, c)
  {
    var disc := By(c);
    if disc in ElementListBys {
      var m := ElementModule.GetElements(env.elementBase, c);
      if IsError(m) {
        return Response(Raw(m), [ElementsRead(c)]);
      }
      var o := TransformResult(env.helper, ElementShape, m);
      return Response(o, [ElementsRead(c)]);
    } else if disc == "detail" {
      var dc := DetailCondition(c);
      var m := ElementModule.GetElements(env.elementBase, dc);
      return Response(DetailBranch(env.helper, m), [ElementsRead(dc)]);
    }
    return Response(Error2003, []);
  }

  method GetHeroList(env: Env, c: Condition) returns (resp: Response)
    ensures resp == HeroList(env, c)
  {
    var m := env.heroModule.getHeroList(c);
    var calls := [HeroListRead(c)];
    if IsError(m) {
      return Response(Wrapped(m), calls);
    }
    var disc := By(c);
    var o := Wrapped(m);
    if disc == "type_id" {
      o := TransformResult(env.helper, HeroShape, m);
    } else if disc == "type_hero" {
      o := TransformResult(env.helper, HeroTypeShape, m);
    }
    return Response(o, calls);
  }

  method GetThemeList(env: Env, c: Condition) returns (resp: Response)
    ensures resp == ThemeList(env, c)
  {
    if By(c) == "enabled" {
      var m := env.themeModule.getThemeList(c);
      if IsError(m) {
        return Response(Wrapped(m), [ThemeListRead(c)]);
      }
      var o := TransformResult(env.helper, ThemeShape, m);
      return Response(o, [ThemeListRead(c)]);
    }
    return Response(Error2003, []);
  }

  /** `elementOperate`: only the two counter operations reach the module, which has no case for
      them and returns null; no transaction is ever run from here. */
  method ElementOperate(env: Env, store: ElementModule.Store, c: Condition) returns (resp: Response)
    modifies store
    ensures By(c) in CounterBys ==> resp == Response(Wrapped(Null), [ElementWrite(c, By(c))])
    ensures By(c) !in CounterBys ==> resp == Response(Error2003, [])
    ensures store.log == old(store.log)
  {
    var disc := By(c);
    if disc in CounterBys {
      var r := ElementModule.ElementOperate(env, store, c, disc);
      return Response(Wrapped(r), [ElementWrite(c, disc)]);
    }
    return Response(Error2003, []);
  }

  // ----- properties of getElementList -----

  /** A `by` outside the six answered ones, an absent `by` among them, gets 2003 and no module call. */
  lemma ElementListUnknownBy(env: Env, c: Condition)
    requires "by" !in c || By(c) !in ElementListBys + {"detail"}
    ensures ElementList(env, c) == Response(Wrapped(Err(UnknownRequest)), [])
  {
  }

  /** The response leaves the envelope exactly when a read query returned an error. */
  lemma ElementListRawIffModuleError(env: Env, c: Condition)
    ensures ElementList(env, c).outcome.Raw? <==>
      (By(c) in ElementModule.ReadBys && IsError(ElementModule.GetElements(env.elementBase, c)))
    ensures ElementList(env, c).outcome.Raw? ==>
      ElementList(env, c).outcome.result == ElementModule.GetElements(env.elementBase, c)
  {
  }

  /** A collection of elements from a read query is projected element by element, keeping
      length and order. */
  lemma ElementListProjection(env: Env, c: Condition)
    requires By(c) in ElementModule.ReadBys
    requires ElementModule.GetElements(env.elementBase, c).Coll?
    requires forall i :: 0 <= i < |ElementModule.GetElements(env.elementBase, c).items| ==>
      ElementModule.GetElements(env.elementBase, c).items[i].ElementModel?
    ensures ElementList(env, c).outcome.Wrapped?
    ensures ElementList(env, c).outcome.payload.Coll?
    ensures |ElementList(env, c).outcome.payload.items| == |ElementModule.GetElements(env.elementBase, c).items|
    ensures forall i :: 0 <= i < |ElementModule.GetElements(env.elementBase, c).items| ==>
      ElementList(env, c).outcome.payload.items[i] ==
        ElementDto(env.helper, ElementModule.GetElements(env.elementBase, c).items[i].element)
  {
    var items := ElementModule.GetElements(env.elementBase, c).items;
    var p := ProjectAll(env.helper, ElementShape, items);
    assert forall k :: 0 <= k < |items| ==> ProjectItem(env.helper, ElementShape, items[k]).Some?;
    assert p.Some?;
    forall i | 0 <= i < |items|
      ensures p.value[i] == ElementDto(env.helper, items[i].element)
    {
      assert Some(p.value[i]) == ProjectItem(env.helper, ElementShape, items[i]);
    }
  }

  /** `type` and `recommend` are forwarded, the module answers `[]`, and calling `transform` on
      that array fails at run time. */
  lemma TypeAndRecommendCrash(env: Env, c: Condition)
    requires By(c) == "type" || By(c) == "recommend"
    ensures ElementList(env, c) == Response(Crash, [ElementsRead(c)])
  {
  }

  /** The `detail` request: the module is asked with exactly `by` and `unique_id`, answers `[]`,
      and that empty array goes to `apiResponse` without projection. */
  lemma DetailIsAlwaysEmpty(env: Env, c: Condition)
    requires By(c) == "detail"
    ensures ElementList(env, c).calls == [ElementsRead(DetailCondition(c))]
    ensures DetailCondition(c).Keys == {"by", "unique_id"}
    ensures DetailCondition(c)["by"] == "detail"
    ensures DetailCondition(c)["unique_id"] == ArrayGet(c, "unique_id", "0")
    ensures ElementList(env, c).outcome == Wrapped(EmptyArr)
  {
  }

  /** What the `detail` branch would do with each kind of module result. */
  lemma DetailBranchCases(helper: Helper, m: ModResult)
    ensures IsError(m) ==> DetailBranch(helper, m) == Raw(m)
    ensures !Truthy(m) ==> DetailBranch(helper, m) == Wrapped(m)
    ensures m.One? && m.value.ElementModel? ==>
      DetailBranch(helper, m) == Wrapped(One(ElementDto(helper, m.value.element)))
    ensures DetailBranch(helper, One(List([]))) == Wrapped(One(List([])))
    ensures DetailBranch(helper, Null) == Wrapped(Null) && DetailBranch(helper, EmptyArr) == Wrapped(EmptyArr)
  {
  }

  // ----- properties of the other endpoints -----

  /** `getHeroList` always asks the module first, wraps its error, and never answers 2003. */
  lemma HeroListDispatch(env: Env, c: Condition)
    ensures HeroList(env, c).calls == [HeroListRead(c)]
    ensures IsError(env.heroModule.getHeroList(c)) ==>
      HeroList(env, c).outcome == Wrapped(env.heroModule.getHeroList(c))
    ensures By(c) != "type_id" && By(c) != "type_hero" ==>
      HeroList(env, c).outcome == Wrapped(env.heroModule.getHeroList(c))
    ensures HeroList(env, c).outcome != Error2003 || env.heroModule.getHeroList(c) == Err(UnknownRequest)
    ensures !HeroList(env, c).outcome.Raw?
  {
  }

  /** `type_id` turns a collection of heroes into hero DTOs, in order. */
  lemma HeroListTypeId(env: Env, c: Condition, heroes: seq<HeroRec>)
    requires By(c) == "type_id"
    requires env.heroModule.getHeroList(c) == Coll(seq(|heroes|, i requires 0 <= i < |heroes| => HeroModel(heroes[i])))
    ensures HeroList(env, c).outcome == Wrapped(Coll(HeroDtos(env.helper, heroes)))
  {
    ProjectHeroes(env.helper, env.heroModule.getHeroList(c).items, heroes);
  }

  /** `type_hero` turns a collection of hero types into `{name, hero}` DTOs, in order, each with
      its heroes mapped in order. */
  lemma HeroListTypeHero(env: Env, c: Condition, types: seq<HeroTypeRec>)
    requires By(c) == "type_hero"
    requires env.heroModule.getHeroList(c) == Coll(seq(|types|, i requires 0 <= i < |types| => HeroTypeModel(types[i])))
    ensures HeroList(env, c).outcome.Wrapped?
    ensures HeroList(env, c).outcome.payload.Coll?
    ensures |HeroList(env, c).outcome.payload.items| == |types|
    ensures forall i :: 0 <= i < |types| ==>
      HeroList(env, c).outcome.payload.items[i] ==
        Assoc(map["name" := Text(types[i].name), "hero" := List(HeroDtos(env.helper, types[i].hero))])
  {
    var items := env.heroModule.getHeroList(c).items;
    var p := ProjectAll(env.helper, HeroTypeShape, items);
    assert forall k :: 0 <= k < |items| ==> ProjectItem(env.helper, HeroTypeShape, items[k]).Some?;
    assert forall k :: 0 <= k < |items| ==> Some(p.value[k]) == ProjectItem(env.helper, HeroTypeShape, items[k]);
  }

  /** `getThemeList` answers only `enabled`; otherwise 2003 and no module call. Its module
      error is wrapped, unlike `getElementList`'s. */
  lemma ThemeListDispatch(env: Env, c: Condition)
    ensures By(c) != "enabled" ==> ThemeList(env, c) == Response(Error2003, [])
    ensures By(c) == "enabled" ==> ThemeList(env, c).calls == [ThemeListRead(c)]
    ensures By(c) == "enabled" && IsError(env.themeModule.getThemeList(c)) ==>
      ThemeList(env, c).outcome == Wrapped(env.themeModule.getThemeList(c))
    ensures !ThemeList(env, c).outcome.Raw?
  {
  }

  /** A collection of themes becomes theme DTOs, in order, each with its elements projected in order. */
  lemma ThemeListProjection(env: Env, c: Condition, themes: seq<ThemeRec>)
    requires By(c) == "enabled"
    requires env.themeModule.getThemeList(c) == Coll(seq(|themes|, i requires 0 <= i < |themes| => ThemeModel(themes[i])))
    ensures ThemeList(env, c).outcome.Wrapped?
    ensures ThemeList(env, c).outcome.payload.Coll?
    ensures |ThemeList(env, c).outcome.payload.items| == |themes|
    ensures forall i :: 0 <= i < |themes| ==>
      ThemeList(env, c).outcome.payload.items[i] == ThemeDto(env.helper, themes[i])
  {
    var items := env.themeModule.getThemeList(c).items;
    var p := ProjectAll(env.helper, ThemeShape, items);
    assert forall k :: 0 <= k < |items| ==> ProjectItem(env.helper, ThemeShape, items[k]).Some?;
    assert forall k :: 0 <= k < |items| ==> Some(p.value[k]) == ProjectItem(env.helper, ThemeShape, items[k]);
  }

  /** The envelope policy across endpoints. Only `getElementList` can hand a result back
      without `apiResponse`, and then only an error. Every other endpoint wraps what its module
      returned, an error included. The pass-throughs make exactly one module call, never
      fail at run time, and answer 2003 only when their module did. */
  lemma EnvelopePolicy(env: Env, c: Condition, operate: string)
    ensures ElementList(env, c).outcome.Raw? ==> IsError(ElementList(env, c).outcome.result)
    ensures !HeroList(env, c).outcome.Raw? && !ThemeList(env, c).outcome.Raw?
    ensures IsError(env.heroModule.getHeroList(c)) ==>
      HeroList(env, c).outcome == Wrapped(env.heroModule.getHeroList(c))
    ensures By(c) == "enabled" && IsError(env.themeModule.getThemeList(c)) ==>
      ThemeList(env, c).outcome == Wrapped(env.themeModule.getThemeList(c))
    ensures HeroTypeList(env, c).outcome.Wrapped? && |HeroTypeList(env, c).calls| == 1
    ensures HeroTypeOperate(env, c, operate).outcome.Wrapped? && |HeroTypeOperate(env, c, operate).calls| == 1
    ensures HeroOperate(env, c, operate).outcome.Wrapped? && |HeroOperate(env, c, operate).calls| == 1
    ensures HeroTypeList(env, c).outcome == Error2003 <==>
      env.heroModule.getAllHeroType(c) == Err(UnknownRequest)
    ensures HeroTypeOperate(env, c, operate).outcome == Error2003 <==>
      env.heroModule.heroTypeOperate(c, operate) == Err(UnknownRequest)
    ensures HeroOperate(env, c, operate).outcome == Error2003 <==>
      env.heroModule.heroOperate(c, operate) == Err(UnknownRequest)
  {
  }

  /** Default deny: a read endpoint makes exactly one module call when it answers the
      discriminator with something other than 2003 from itself, and none otherwise. */
  lemma AtMostOneModuleCall(env: Env, c: Condition)
    ensures |ElementList(env, c).calls| <= 1 && |ThemeList(env, c).calls| <= 1
    ensures ElementList(env, c).calls == [] <==> By(c) !in ElementListBys + {"detail"}
    ensures ThemeList(env, c).calls == [] <==> By(c) != "enabled"
  {
  }
}

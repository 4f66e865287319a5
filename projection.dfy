/** The handler's response projections: the wire-stable DTO shapes, the pure inner `map`
    calls, and the in-place `transform` of a collection. */
module Projection {
  import opened Values
  import opened Collaborators

  /** The keys of an element DTO, in the list, detail and theme projections alike. */
  const ElementDtoKeys: set<string> :=
    {"unique_id", "hero_id", "url", "title", "poster", "play_num", "raise_num", "duration"}

  const HeroDtoKeys: set<string> := {"hero_id", "hero_name", "image_url"}

  const HeroTypeDtoKeys: set<string> := {"name", "hero"}

  const ThemeDtoKeys: set<string> := {"theme_id", "name", "theme_image_url", "elements"}

  /** `$item->image ? Helper::fullUrl($item->image->url) : ''`. */
  function ImageUrl(helper: Helper, image: Option<Image>): string
  {
    if image.Some? then helper.fullUrl(image.value.url) else ""
  }

  /** A nullable integer attribute as a PHP value. */
  function NullableNum(n: Option<int>): Value
  {
    if n.Some? then Num(n.value) else Nil
  }

  /** The element DTO. */
  function ElementDto(helper: Helper, e: ElementRec): Value
  {
    Assoc(map[
      "unique_id" := Text(e.uniqueId),
      "hero_id" := NullableNum(e.heroId),
      "url" := Text(e.url),
      "title" := Text(e.title),
      "poster" := Text(ImageUrl(helper, e.image)),
      "play_num" := Num(e.playNum),
      "raise_num" := Num(e.raiseNum),
      "duration" := Text(helper.formatDurationTime(e.duration))])
  }

  /** The hero DTO; its image URL is built from `getImageSrc()` with no empty default. */
  function HeroDto(helper: Helper, h: HeroRec): Value
  {
    Assoc(map[
      "hero_id" := Num(h.id),
      "hero_name" := Text(h.name),
      "image_url" := Text(helper.fullUrl(h.imageSrc))])
  }

  /** `$item->element->map(...)` inside a theme: one element DTO per element, in order. */
  function ElementDtos(helper: Helper, es: seq<ElementRec>): (r: seq<Value>)
    ensures |r| == |es|
    ensures forall i :: 0 <= i < |es| ==> r[i] == ElementDto(helper, es[i])
  {
    if es == [] then [] else [ElementDto(helper, es[0])] + ElementDtos(helper, es[1..])
  }

  /** `$hero_type->hero->map(...)`: one hero DTO per hero, in order. */
  function HeroDtos(helper: Helper, hs: seq<HeroRec>): (r: seq<Value>)
    ensures |r| == |hs|
    ensures forall i :: 0 <= i < |hs| ==> r[i] == HeroDto(helper, hs[i])
  {
    if hs == [] then [] else [HeroDto(helper, hs[0])] + HeroDtos(helper, hs[1..])
  }

  /** The `type_hero` DTO: the type's name and its heroes' DTOs. */
  function HeroTypeDto(helper: Helper, t: HeroTypeRec): Value
  {
    Assoc(map["name" := Text(t.name), "hero" := List(HeroDtos(helper, t.hero))])
  }

  /** The theme DTO, with its elements projected. */
  function ThemeDto(helper: Helper, t: ThemeRec): Value
  {
    Assoc(map[
      "theme_id" := Num(t.id),
      "name" := Text(t.name),
      "theme_image_url" := Text(ImageUrl(helper, t.image)),
      "elements" := List(ElementDtos(helper, t.element))])
  }

  /** Which `transform` callback is applied. */
  datatype Shape = ElementShape | HeroShape | HeroTypeShape | ThemeShape

  /** One application of a callback; `None` when the item is not the model the callback reads. */
  function ProjectItem(helper: Helper, shape: Shape, v: Value): Option<Value>
  {
    match (shape, v)
    case (ElementShape, ElementModel(e)) => Some(ElementDto(helper, e))
    case (HeroShape, HeroModel(h)) => Some(HeroDto(helper, h))
    case (HeroTypeShape, HeroTypeModel(t)) => Some(HeroTypeDto(helper, t))
    case (ThemeShape, ThemeModel(t)) => Some(ThemeDto(helper, t))
    case _ => None
  }

  /** What `transform` leaves in a collection: every item replaced by its projection, in
      place, or `None` when some item cannot be projected. */
  function ProjectAll(helper: Helper, shape: Shape, items: seq<Value>): (r: Option<seq<Value>>)
    ensures r.Some? <==> forall k :: 0 <= k < |items| ==> ProjectItem(helper, shape, items[k]).Some?
    ensures r.Some? ==> |r.value| == |items|
    ensures r.Some? ==> forall k :: 0 <= k < |items| ==> Some(r.value[k]) == ProjectItem(helper, shape, items[k])
  {
    if items == [] then Some([])
    else
      match (ProjectItem(helper, shape, items[0]), ProjectAll(helper, shape, items[1..]))
      case (Some(d), Some(rest)) => Some([d] + rest)
      case _ => None
  }

  /** Transforming a collection of heroes gives their hero DTOs, in order. */
  lemma ProjectHeroes(helper: Helper, items: seq<Value>, heroes: seq<HeroRec>)
    requires |items| == |heroes|
    requires forall i :: 0 <= i < |items| ==> items[i] == HeroModel(heroes[i])
    ensures ProjectAll(helper, HeroShape, items) == Some(HeroDtos(helper, heroes))
  {
    var p := ProjectAll(helper, HeroShape, items);
    assert forall k :: 0 <= k < |items| ==> ProjectItem(helper, HeroShape, items[k]) == Some(HeroDto(helper, heroes[k]));
    assert p.Some?;
    assert p.value == HeroDtos(helper, heroes);
  }

  /** `$collection->transform($callback)`: the items are rewritten one at a time, in place. */
  method Transform(helper: Helper, shape: Shape, items: seq<Value>) returns (r: Option<seq<Value>>)
    ensures r == ProjectAll(helper, shape, items)
  {
    var out := items;
    var i := 0;
    while i < |out|
      invariant 0 <= i <= |out| == |items|
      invariant forall k :: 0 <= k < i ==> ProjectItem(helper, shape, items[k]) == Some(out[k])
      invariant out[i..] == items[i..]
    {
      assert out[i] == items[i] by { assert out[i..][0] == items[i..][0]; }
      var p := ProjectItem(helper, shape, out[i]);
      if p.None? {
        return None;
      }
      out := out[i := p.value];
      i := i + 1;
    }
    var all := ProjectAll(helper, shape, items);
    assert all.Some?;
    assert all.value == out;
    return Some(out);
  }

  /** The element DTO has exactly its eight keys; each is copied from the record, the poster is
      the image's full URL or `''`, and the duration is formatted. */
  lemma ElementDtoShape(helper: Helper, e: ElementRec)
    ensures ElementDto(helper, e).Assoc?
    ensures ElementDto(helper, e).fields.Keys == ElementDtoKeys
    ensures ElementDto(helper, e).fields["unique_id"] == Text(e.uniqueId)
    ensures ElementDto(helper, e).fields["hero_id"] == NullableNum(e.heroId)
    ensures ElementDto(helper, e).fields["url"] == Text(e.url)
    ensures ElementDto(helper, e).fields["title"] == Text(e.title)
    ensures ElementDto(helper, e).fields["play_num"] == Num(e.playNum)
    ensures ElementDto(helper, e).fields["raise_num"] == Num(e.raiseNum)
    ensures ElementDto(helper, e).fields["duration"] == Text(helper.formatDurationTime(e.duration))
    ensures e.image.None? ==> ElementDto(helper, e).fields["poster"] == Text("")
    ensures e.image.Some? ==> ElementDto(helper, e).fields["poster"] == Text(helper.fullUrl(e.image.value.url))
  {
  }

  /** Hero, hero-type and theme DTOs have exactly their keys; a theme without an image gets `''`
      and its elements are projected in order. */
  lemma NestedDtoShapes(helper: Helper, h: HeroRec, t: HeroTypeRec, th: ThemeRec)
    ensures HeroDto(helper, h).fields.Keys == HeroDtoKeys
    ensures HeroDto(helper, h).fields["image_url"] == Text(helper.fullUrl(h.imageSrc))
    ensures HeroTypeDto(helper, t).fields.Keys == HeroTypeDtoKeys
    ensures HeroTypeDto(helper, t).fields["hero"] == List(HeroDtos(helper, t.hero))
    ensures ThemeDto(helper, th).fields.Keys == ThemeDtoKeys
    ensures th.image.None? ==> ThemeDto(helper, th).fields["theme_image_url"] == Text("")
    ensures th.image.Some? ==> ThemeDto(helper, th).fields["theme_image_url"] == Text(helper.fullUrl(th.image.value.url))
    ensures ThemeDto(helper, th).fields["elements"] == List(ElementDtos(helper, th.element))
  {
  }
}

/** The collaborators the core calls but whose code is not part of this model. Each one is
    a function-valued field, so every statement about the core holds for all of them. */
module Collaborators {
  import opened Values

  /** `Library\Helper`: URL building and duration formatting. */
  datatype Helper = Helper(fullUrl: string -> string, formatDurationTime: int -> string)

  /** The three read queries of `GloryKing\Base\ElementBase`, each a function of the condition. */
  datatype ElementBase = ElementBase(
    getHotElement: Condition -> ModResult,
    getElementByHero: Condition -> ModResult,
    getAllElement: Condition -> ModResult)

  /** The results of `GloryKing\Module\HeroModule`. */
  datatype HeroModule = HeroModule(
    getHeroList: Condition -> ModResult,
    getAllHeroType: Condition -> ModResult,
    heroTypeOperate: (Condition, string) -> ModResult,
    heroOperate: (Condition, string) -> ModResult)

  /** The results of `GloryKing\Module\ThemeModule`. */
  datatype ThemeModule = ThemeModule(getThemeList: Condition -> ModResult)

  /** A `FormValidator` bound to one rule set: whether a condition fails it, and the error it reports. */
  datatype Validator = Validator(isFailed: Condition -> bool, getError: Condition -> ModResult)

  /** A write that a transaction callback performs: `ElementBase::addElement(condition)`. */
  datatype Write = AddElement(condition: Condition)

  /** Everything the handler and the element module depend on. `dbTransaction` gives the
      result of running a transaction whose callback performs the given writes. */
  datatype Env = Env(
    helper: Helper,
    elementBase: ElementBase,
    heroModule: HeroModule,
    themeModule: ThemeModule,
    addElementRules: Validator,
    dbTransaction: seq<Write> -> ModResult)
}

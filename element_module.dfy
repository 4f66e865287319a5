/** `GloryKing\Module\ElementModule`: a permissive read switch over three base queries and a
    write switch whose only case, `add`, validates and then runs one transaction. */
module ElementModule {
  import opened Values
  import opened Collaborators

  /** The discriminators `getElements` answers from a base query. */
  const ReadBys: set<string> := {"hot", "hero", "all"}

  /** `getElements`: run the base query `by` selects on the unchanged condition; any other
      `by`, the empty one included, gets `[]` and never an error. */
  function GetElements(base: ElementBase, c: Condition): (r: ModResult)
    ensures By(c) !in ReadBys ==> r == EmptyArr
    ensures IsError(r) || Truthy(r) ==> By(c) in ReadBys
  {
    var disc := By(c);
    if disc == "hot" then base.getHotElement(c)
    else if disc == "hero" then base.getElementByHero(c)
    else if disc == "all" then base.getAllElement(c)
    else EmptyArr
  }

  /** The base queries of `ElementBase`, named. */
  datatype BaseQuery = HotQuery | HeroQuery | AllQuery

  /** The read switch as a table: which base query a discriminator selects. */
  function SelectedQuery(disc: string): (q: Option<BaseQuery>)
    ensures q.Some? <==> disc in ReadBys
  {
    if disc == "hot" then Some(HotQuery)
    else if disc == "hero" then Some(HeroQuery)
    else if disc == "all" then Some(AllQuery)
    else None
  }

  function RunQuery(base: ElementBase, q: BaseQuery): Condition -> ModResult
  {
    match q
    case HotQuery => base.getHotElement
    case HeroQuery => base.getElementByHero
    case AllQuery => base.getAllElement
  }

  /** `getElements` agrees with the table: the selected query, given the condition as it came. */
  lemma GetElementsFollowsTable(base: ElementBase, c: Condition)
    ensures SelectedQuery(By(c)).Some? ==>
      GetElements(base, c) == RunQuery(base, SelectedQuery(By(c)).value)(c)
    ensures SelectedQuery(By(c)).None? ==> GetElements(base, c) == EmptyArr
  {
  }

  /** The three answered discriminators reach three different queries. */
  lemma ReadQueriesDistinct(by1: string, by2: string)
    requires by1 in ReadBys && by2 in ReadBys && by1 != by2
    ensures SelectedQuery(by1) != SelectedQuery(by2)
  {
  }

  /** A read consults the selected query only: two query layers that agree on it give the same result. */
  lemma GetElementsReadsOnlySelectedQuery(b1: ElementBase, b2: ElementBase, c: Condition)
    requires SelectedQuery(By(c)).Some? ==>
      RunQuery(b1, SelectedQuery(By(c)).value)(c) == RunQuery(b2, SelectedQuery(By(c)).value)(c)
    ensures GetElements(b1, c) == GetElements(b2, c)
  {
    GetElementsFollowsTable(b1, c);
    GetElementsFollowsTable(b2, c);
  }

  /** A transaction that was run, with the writes its callback performed. */
  datatype Effect = Transaction(writes: seq<Write>)

  /** The persistence layer as `elementOperate` sees it: the transactions it has run, oldest first. */
  class Store {
    var log: seq<Effect>

    constructor ()
      ensures log == []
    {
      log := [];
    }

    /** Validation gating: every transaction performed exactly one `addElement`, on a
        condition that passed the rules. */
    predicate Gated(rules: Validator)
      reads this
    {
      forall i :: 0 <= i < |log| ==>
        |log[i].writes| == 1 && !rules.isFailed(log[i].writes[0].condition)
    }
  }

  /** `elementOperate`. For `add`: a failing validator returns its error and touches nothing;
      a passing one runs one transaction whose callback adds the element once. Any other
      `operate` falls off the end of the switch and returns null. */
  method ElementOperate(env: Env, store: Store, c: Condition, operate: string) returns (r: ModResult)
    modifies store
    ensures operate != "add" ==> r == Null && store.log == old(store.log)
    ensures operate == "add" && env.addElementRules.isFailed(c) ==>
      r == env.addElementRules.getError(c) && store.log == old(store.log)
    ensures operate == "add" && !env.addElementRules.isFailed(c) ==>
      r == env.dbTransaction([AddElement(c)]) &&
      store.log == old(store.log) + [Transaction([AddElement(c)])]
    ensures old(store.Gated(env.addElementRules)) ==> store.Gated(env.addElementRules)
  {
    if operate == "add" {
      if env.addElementRules.isFailed(c) {
        return env.addElementRules.getError(c);
      }
      var writes := [AddElement(c)];
      store.log := store.log + [Transaction(writes)];
      return env.dbTransaction(writes);
    }
    return Null;
  }
}

/**
 * Which grouping column a plot uses, whether the grouping selector is
 * locked, and the tag its label shows. Optional strings follow JavaScript
 * truthiness: `undefined` and the empty string both count as absent.
 */
module GroupBy {
  import opened Optional

  /** Grouping used when no candidate is present. */
  const DefaultGroupBy: string := "sample_id"

  /** The grouping inputs supplied with a plot; an omitted enable flag is `false`. */
  datatype GroupingContext = GroupingContext(
    forceGroupBy: Option<string>,
    globalGroupBy: Option<string>,
    globalGroupingEnabled: bool)

  /** Why the selector is locked, if it is. */
  datatype Lock = Fixed | Global | Unlocked

  /** JavaScript truthiness of an optional string. */
  predicate Present(o: Option<string>)
  {
    o.Some? && o.value != ""
  }

  predicate Forced(ctx: GroupingContext)
  {
    Present(ctx.forceGroupBy)
  }

  /** `isGlobalGroupingEnabled && globalGroupBy` is truthy. */
  predicate GlobalActive(ctx: GroupingContext)
  {
    ctx.globalGroupingEnabled && Present(ctx.globalGroupBy)
  }

  /** The selector's value: `force || (enabled && global) || local || "sample_id"`. */
  function ResolveGroupBy(ctx: GroupingContext, local: Option<string>): (r: string)
    ensures r != ""
    ensures Forced(ctx) ==> r == ctx.forceGroupBy.value
    ensures !Forced(ctx) && GlobalActive(ctx) ==> r == ctx.globalGroupBy.value
    ensures !Forced(ctx) && !GlobalActive(ctx) && Present(local) ==> r == local.value
    ensures !Forced(ctx) && !GlobalActive(ctx) && !Present(local) ==> r == DefaultGroupBy
  {
    if Forced(ctx) then ctx.forceGroupBy.value
    else if GlobalActive(ctx) then ctx.globalGroupBy.value
    else if Present(local) then local.value
    else DefaultGroupBy
  }

  /** Reference definition: the first present candidate, else the fallback. */
  function FirstPresent(candidates: seq<Option<string>>, fallback: string): (r: string)
    ensures r == fallback || exists i :: 0 <= i < |candidates| && Present(candidates[i]) && r == candidates[i].value
    ensures (forall i :: 0 <= i < |candidates| ==> !Present(candidates[i])) ==> r == fallback
    ensures forall i :: (0 <= i < |candidates| && Present(candidates[i])
                         && forall j :: 0 <= j < i ==> !Present(candidates[j])) ==> r == candidates[i].value
  {
    if candidates == [] then fallback
    else if Present(candidates[0]) then candidates[0].value
    else FirstPresent(candidates[1..], fallback)
  }

  /** The candidates in precedence order; the global one only counts when enabled. */
  function Candidates(ctx: GroupingContext, local: Option<string>): seq<Option<string>>
  {
    [ctx.forceGroupBy, if ctx.globalGroupingEnabled then ctx.globalGroupBy else None, local]
  }

  /** The resolver picks the highest-precedence present candidate. */
  lemma {:induction false} ResolveIsFirstPresent(ctx: GroupingContext, local: Option<string>)
    ensures ResolveGroupBy(ctx, local) == FirstPresent(Candidates(ctx, local), DefaultGroupBy)
  {
    var c := Candidates(ctx, local);
    assert c[1..][1..] == [local] && [local][1..] == [];
    assert !Present(c[1]) ==> FirstPresent(c[1..], DefaultGroupBy) == FirstPresent([local], DefaultGroupBy);
  }

  /** The selector's `disabled` flag. */
  function SelectorDisabled(ctx: GroupingContext): (d: bool)
    ensures d <==> LockOf(ctx) != Unlocked
  {
    Forced(ctx) || GlobalActive(ctx)
  }

  /** The lock reason, derived from the same inputs as the resolved value. */
  function LockOf(ctx: GroupingContext): (l: Lock)
    ensures l == Fixed <==> Forced(ctx)
    ensures l == Global <==> !Forced(ctx) && GlobalActive(ctx)
  {
    if Forced(ctx) then Fixed
    else if GlobalActive(ctx) then Global
    else Unlocked
  }

  /** The tag shown after "Group By" in the selector's label. */
  function LabelTag(ctx: GroupingContext): (tag: string)
    ensures tag == "" <==> !SelectorDisabled(ctx)
    ensures LockOf(ctx) == Fixed ==> tag == "(Fixed)"
    ensures LockOf(ctx) == Global ==> tag == "(Global)"
  {
    if Forced(ctx) then "(Fixed)"
    else if GlobalActive(ctx) then "(Global)"
    else ""
  }

  /** The explanatory note under the selector, if any. */
  function LockNotice(ctx: GroupingContext): (notice: Option<string>)
    ensures notice.Some? <==> SelectorDisabled(ctx)
    ensures Forced(ctx) ==> notice == Some("This plot always uses \"" + ctx.forceGroupBy.value + "\" grouping")
    ensures !Forced(ctx) && GlobalActive(ctx) ==> notice == Some("Global group by setting is active")
  {
    if Forced(ctx) then Some("This plot always uses \"" + ctx.forceGroupBy.value + "\" grouping")
    else if GlobalActive(ctx) then Some("Global group by setting is active")
    else None
  }

  /** While the selector is disabled the plot's own choice has no effect on the grouping. */
  lemma LockedIgnoresLocal(ctx: GroupingContext, local1: Option<string>, local2: Option<string>)
    requires SelectorDisabled(ctx)
    ensures ResolveGroupBy(ctx, local1) == ResolveGroupBy(ctx, local2)
  {
  }

  /** While the selector is enabled the plot's own choice decides, falling back to the default. */
  lemma UnlockedFollowsLocal(ctx: GroupingContext, local: Option<string>)
    requires !SelectorDisabled(ctx)
    ensures ResolveGroupBy(ctx, local) == (if Present(local) then local.value else DefaultGroupBy)
  {
  }
}

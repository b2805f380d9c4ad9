/**
 * AliasManagerImpl: resolves the alias contributions of the IoC container
 * into the map of aliases in force for one mode.
 *
 * Each contribution names a type, a mode and a value. A general contribution
 * has the mode "". For a requested mode the manager builds two tiers with the
 * same rule: the general tier (mode "") and the tier of the requested mode,
 * modes being compared ignoring case. Within a tier the first contribution
 * for a type wins and every later one for that type is logged as a conflict
 * and ignored. The tier of the requested mode then overrides the general tier
 * type by type. Contributions for any other mode play no part.
 *
 * Types are written by their class names and values by their string forms,
 * so the identity of a contributed object is modelled as equality.
 */
module AliasManager {
  import opened Wrappers
  import opened Text

  /** The mode of a contribution made without one. */
  const GeneralMode: string := ""

  datatype Contribution = Contribution(contributionType: string, mode: string, value: string)

  /** AliasContribution.create(type, value): a general contribution. */
  function General(contributionType: string, value: string): (c: Contribution)
    ensures c.mode == GeneralMode && c.contributionType == contributionType && c.value == value
  {
    Contribution(contributionType, GeneralMode, value)
  }

  /** The contribution belongs to the tier of `mode`: the modes are equal ignoring case. */
  predicate InMode(c: Contribution, mode: string) {
    EqualsIgnoreCase(mode, c.mode)
  }

  /** The error logged for a contribution ignored because its type already has a value in the tier. */
  function ConflictMessage(c: Contribution, existing: string): string {
    "Contribution " + c.value + " (for type " + c.contributionType + ") conflicts with existing contribution "
    + existing + " and has been ignored."
  }

  // ---------------------------------------------------------------------
  // One tier: buildMapForMode as a fold over the contributions

  /** The tier of `mode`: each type maps to the value of the first contribution for it in that mode. */
  function TierMap(contributions: seq<Contribution>, mode: string): map<string, string> {
    if contributions == [] then map[]
    else
      var c := contributions[|contributions| - 1];
      var m := TierMap(contributions[..|contributions| - 1], mode);
      if InMode(c, mode) && c.contributionType !in m then m[c.contributionType := c.value] else m
  }

  /** The errors logged while building the tier of `mode`, in order. */
  function TierConflicts(contributions: seq<Contribution>, mode: string): seq<string> {
    if contributions == [] then []
    else
      var c := contributions[|contributions| - 1];
      var init := contributions[..|contributions| - 1];
      var m := TierMap(init, mode);
      TierConflicts(init, mode)
      + if InMode(c, mode) && c.contributionType in m then [ConflictMessage(c, m[c.contributionType])] else []
  }

  /** getAliasesForMode: the general tier, overridden type by type by the tier of the requested mode. */
  function Aliases(contributions: seq<Contribution>, mode: string): map<string, string> {
    TierMap(contributions, GeneralMode) + TierMap(contributions, mode)
  }

  /** Everything getAliasesForMode logs: the conflicts of the general tier, then those of the requested mode. */
  function AliasConflicts(contributions: seq<Contribution>, mode: string): seq<string> {
    TierConflicts(contributions, GeneralMode) + TierConflicts(contributions, mode)
  }

  // ---------------------------------------------------------------------
  // A reference definition: scan from the front for the first match

  /** The value of the first contribution in the tier of `mode` for type `t`, if any. */
  function FirstValue(contributions: seq<Contribution>, mode: string, t: string): Option<string> {
    if contributions == [] then None
    else if InMode(contributions[0], mode) && contributions[0].contributionType == t then Some(contributions[0].value)
    else FirstValue(contributions[1..], mode, t)
  }

  /** How many contributions belong to the tier of `mode`. */
  function TierSize(contributions: seq<Contribution>, mode: string): nat {
    if contributions == [] then 0
    else TierSize(contributions[..|contributions| - 1], mode) + (if InMode(contributions[|contributions| - 1], mode) then 1 else 0)
  }

  // ---------------------------------------------------------------------
  // The logging service and the manager

  /** The Log the manager reports conflicts to; only its error messages are modelled. */
  class Log {
    var errors: seq<string>

    constructor ()
      ensures errors == []
    {
      errors := [];
    }

    /** error(message) */
    method Error(message: string)
      modifies this
      ensures errors == old(errors) + [message]
    {
      errors := errors + [message];
    }
  }

  class AliasManagerImpl {
    const log: Log
    const contributions: seq<Contribution>

    constructor (log: Log, contributions: seq<Contribution>)
      ensures this.log == log && this.contributions == contributions
    {
      this.log := log;
      this.contributions := contributions;
    }

    /** getAliasesForMode: a fresh map of the aliases in force for `mode`; conflicts go to the log. */
    method GetAliasesForMode(mode: string) returns (aliases: map<string, string>)
      modifies log
      ensures aliases == Aliases(contributions, mode)
      ensures log.errors == old(log.errors) + AliasConflicts(contributions, mode)
    {
      var general := BuildMapForMode(GeneralMode);
      var specific := BuildMapForMode(mode);
      aliases := general + specific;
    }

    /** buildMapForMode: the first contribution for each type in the tier wins; each later one is logged and ignored. */
    method BuildMapForMode(mode: string) returns (result: map<string, string>)
      modifies log
      ensures result == TierMap(contributions, mode)
      ensures log.errors == old(log.errors) + TierConflicts(contributions, mode)
    {
      result := map[];
      for i := 0 to |contributions|
        invariant result == TierMap(contributions[..i], mode)
        invariant log.errors == old(log.errors) + TierConflicts(contributions[..i], mode)
      {
        var c := contributions[i];
        assert contributions[..i + 1][..i] == contributions[..i];
        if InMode(c, mode) {
          if c.contributionType in result {
            log.Error(ConflictMessage(c, result[c.contributionType]));
          } else {
            result := result[c.contributionType := c.value];
          }
        }
      }
      assert contributions[..|contributions|] == contributions;
    }
  }

  // ---------------------------------------------------------------------
  // Properties of the resolution

  /** A front scan over `a + [c]` finds what it finds in `a`, or else `c` when `c` matches. */
  lemma {:induction false} FirstValueSnoc(a: seq<Contribution>, c: Contribution, mode: string, t: string)
    ensures FirstValue(a + [c], mode, t)
      == if FirstValue(a, mode, t).Some? then FirstValue(a, mode, t)
         else if InMode(c, mode) && c.contributionType == t then Some(c.value) else None
    decreases |a|
  {
    if a == [] {
      assert [c][1..] == [];
    } else {
      assert (a + [c])[1..] == a[1..] + [c];
      FirstValueSnoc(a[1..], c, mode, t);
    }
  }

  /**
   * First wins: the tier holds a type exactly when some contribution in that
   * mode is for the type, and its value is that of the first such contribution.
   */
  lemma {:induction false} TierMapFirstWins(contributions: seq<Contribution>, mode: string, t: string)
    ensures t in TierMap(contributions, mode) <==> FirstValue(contributions, mode, t).Some?
    ensures t in TierMap(contributions, mode) ==> TierMap(contributions, mode)[t] == FirstValue(contributions, mode, t).value
    decreases |contributions|
  {
    if contributions != [] {
      var init := contributions[..|contributions| - 1];
      var c := contributions[|contributions| - 1];
      TierMapFirstWins(init, mode, t);
      FirstValueSnoc(init, c, mode, t);
      assert init + [c] == contributions;
    }
  }

  /**
   * The aliases for a mode: a type's value is the first contribution for it
   * in the requested mode, and only when there is none, the first general one.
   */
  lemma AliasesResolve(contributions: seq<Contribution>, mode: string, t: string)
    ensures t in Aliases(contributions, mode)
      <==> FirstValue(contributions, mode, t).Some? || FirstValue(contributions, GeneralMode, t).Some?
    ensures FirstValue(contributions, mode, t).Some? ==>
      Aliases(contributions, mode)[t] == FirstValue(contributions, mode, t).value
    ensures FirstValue(contributions, mode, t).None? && FirstValue(contributions, GeneralMode, t).Some? ==>
      Aliases(contributions, mode)[t] == FirstValue(contributions, GeneralMode, t).value
  {
    TierMapFirstWins(contributions, mode, t);
    TierMapFirstWins(contributions, GeneralMode, t);
  }

  /** Every contribution of a tier either enters its map or is logged: one error per contribution ignored. */
  lemma {:induction false} TierAccounting(contributions: seq<Contribution>, mode: string)
    ensures |TierMap(contributions, mode)| + |TierConflicts(contributions, mode)| == TierSize(contributions, mode)
    decreases |contributions|
  {
    if contributions != [] {
      var init := contributions[..|contributions| - 1];
      var c := contributions[|contributions| - 1];
      var m := TierMap(init, mode);
      TierAccounting(init, mode);
      if InMode(c, mode) && c.contributionType !in m {
        assert m[c.contributionType := c.value].Keys == m.Keys + {c.contributionType};
      }
    }
  }

  /** Distinct types in a tier mean no conflict: nothing is logged and every contribution of the tier is kept. */
  lemma {:induction false} NoConflictWithDistinctTypes(contributions: seq<Contribution>, mode: string)
    requires forall i, j :: (0 <= i < j < |contributions| && InMode(contributions[i], mode) && InMode(contributions[j], mode)
      ==> contributions[i].contributionType != contributions[j].contributionType)
    ensures TierConflicts(contributions, mode) == []
    ensures forall i :: 0 <= i < |contributions| && InMode(contributions[i], mode) ==>
      contributions[i].contributionType in TierMap(contributions, mode)
      && TierMap(contributions, mode)[contributions[i].contributionType] == contributions[i].value
    decreases |contributions|
  {
    if contributions != [] {
      var init := contributions[..|contributions| - 1];
      var c := contributions[|contributions| - 1];
      NoConflictWithDistinctTypes(init, mode);
      if InMode(c, mode) {
        assert c.contributionType !in TierMap(init, mode) by {
          if c.contributionType in TierMap(init, mode) {
            TierMapFirstWins(init, mode, c.contributionType);
            var k := FirstIndex(init, mode, c.contributionType);
            assert false;
          }
        }
      }
    }
  }

  /** Where the front scan found its value: the first contribution of the tier for the type. */
  function FirstIndex(contributions: seq<Contribution>, mode: string, t: string): (k: nat)
    requires FirstValue(contributions, mode, t).Some?
    ensures k < |contributions| && InMode(contributions[k], mode) && contributions[k].contributionType == t
    ensures contributions[k].value == FirstValue(contributions, mode, t).value
  {
    if InMode(contributions[0], mode) && contributions[0].contributionType == t then 0
    else 1 + FirstIndex(contributions[1..], mode, t)
  }

  /** A contribution outside the tier, wherever it stands, changes neither the tier's map nor its log. */
  lemma {:induction false} OtherModeIgnoredInTier(a: seq<Contribution>, c: Contribution, b: seq<Contribution>, mode: string)
    requires !InMode(c, mode)
    ensures TierMap(a + [c] + b, mode) == TierMap(a + b, mode)
    ensures TierConflicts(a + [c] + b, mode) == TierConflicts(a + b, mode)
    decreases |b|
  {
    if b == [] {
      assert (a + [c] + b)[..|a|] == a && a + b == a;
    } else {
      var init := b[..|b| - 1];
      OtherModeIgnoredInTier(a, c, init, mode);
      assert (a + [c] + b)[..|a + [c] + b| - 1] == a + [c] + init;
      assert (a + b)[..|a + b| - 1] == a + init;
      assert (a + [c] + b)[|a + [c] + b| - 1] == (a + b)[|a + b| - 1] == b[|b| - 1];
    }
  }

  /** A contribution for neither the requested mode nor the general one does not affect the aliases or the log. */
  lemma OtherModeIgnored(a: seq<Contribution>, c: Contribution, b: seq<Contribution>, mode: string)
    requires !InMode(c, mode) && !InMode(c, GeneralMode)
    ensures Aliases(a + [c] + b, mode) == Aliases(a + b, mode)
    ensures AliasConflicts(a + [c] + b, mode) == AliasConflicts(a + b, mode)
  {
    OtherModeIgnoredInTier(a, c, b, mode);
    OtherModeIgnoredInTier(a, c, b, GeneralMode);
  }

  /** Modes are compared ignoring case: two spellings of a mode select the same tier. */
  lemma {:induction false} TierIgnoresCase(contributions: seq<Contribution>, mode1: string, mode2: string)
    requires EqualsIgnoreCase(mode1, mode2)
    ensures TierMap(contributions, mode1) == TierMap(contributions, mode2)
    ensures TierConflicts(contributions, mode1) == TierConflicts(contributions, mode2)
    decreases |contributions|
  {
    if contributions != [] {
      TierIgnoresCase(contributions[..|contributions| - 1], mode1, mode2);
      assert InMode(contributions[|contributions| - 1], mode1) == InMode(contributions[|contributions| - 1], mode2);
    }
  }

  /** Requesting a mode in another case yields the same aliases and logs the same errors. */
  lemma AliasesIgnoreCase(contributions: seq<Contribution>, mode1: string, mode2: string)
    requires EqualsIgnoreCase(mode1, mode2)
    ensures Aliases(contributions, mode1) == Aliases(contributions, mode2)
    ensures AliasConflicts(contributions, mode1) == AliasConflicts(contributions, mode2)
  {
    TierIgnoresCase(contributions, mode1, mode2);
  }

  // ---------------------------------------------------------------------
  // The four scenarios of AliasManagerImplTest

  const StringType: string := "java.lang.String"
  const RunnableType: string := "java.lang.Runnable"
  /** The string form of the mock Runnable contributed in every scenario. */
  const MockRunnable: string := "Mock<Runnable>"

  lemma FoldDiffers()
    ensures !EqualsIgnoreCase("foo", GeneralMode) && !EqualsIgnoreCase("BAR", GeneralMode)
    ensures !EqualsIgnoreCase(GeneralMode, "bar") && !EqualsIgnoreCase("foo", "bar")
    ensures EqualsIgnoreCase("BAR", "bar")
  {
    assert Fold("foo")[0] == 'f' && Fold("bar")[0] == 'b';
    assert Fold("BAR")[0] == 'b' && Fold("BAR")[1] == 'a' && Fold("BAR")[2] == 'r';
    assert Fold("bar")[1] == 'a' && Fold("bar")[2] == 'r';
    assert Fold("BAR") == Fold("bar");
  }

  /** One more contribution: the tier's map and log after it, in terms of those before it. */
  lemma TierSnoc(init: seq<Contribution>, c: Contribution, mode: string)
    ensures var m := TierMap(init, mode);
      TierMap(init + [c], mode) == (if InMode(c, mode) && c.contributionType !in m then m[c.contributionType := c.value] else m)
    ensures var m := TierMap(init, mode);
      TierConflicts(init + [c], mode)
      == TierConflicts(init, mode) + (if InMode(c, mode) && c.contributionType in m then [ConflictMessage(c, m[c.contributionType])] else [])
  {
    assert (init + [c])[..|init|] == init;
  }

  lemma TypesDiffer()
    ensures StringType != RunnableType
  {
    assert StringType[10] == 'S' && RunnableType[10] == 'R';
  }

  /** no_conflict: two general contributions for distinct types both appear, and nothing is logged. */
  lemma NoConflictScenario()
    ensures var cs := [General(StringType, "FRED"), General(RunnableType, MockRunnable)];
      Aliases(cs, "foo") == map[StringType := "FRED", RunnableType := MockRunnable]
      && AliasConflicts(cs, "foo") == []
  {
    var c0, c1 := General(StringType, "FRED"), General(RunnableType, MockRunnable);
    var cs := [c0, c1];
    FoldDiffers();
    TypesDiffer();
    assert [] + [c0] == [c0] && [c0] + [c1] == cs;
    TierSnoc([], c0, GeneralMode);
    TierSnoc([c0], c1, GeneralMode);
    TierSnoc([], c0, "foo");
    TierSnoc([c0], c1, "foo");
  }

  /** first_entry_wins_on_conflict: the later general contribution for String is logged and ignored. */
  lemma FirstEntryWinsScenario()
    ensures var cs := [General(StringType, "FRED"), General(StringType, "FRED-CONFLICT"), General(RunnableType, MockRunnable)];
      Aliases(cs, "foo") == map[StringType := "FRED", RunnableType := MockRunnable]
      && AliasConflicts(cs, "foo") == [ConflictMessage(General(StringType, "FRED-CONFLICT"), "FRED")]
  {
    var c0, c1, c2 := General(StringType, "FRED"), General(StringType, "FRED-CONFLICT"), General(RunnableType, MockRunnable);
    var cs := [c0, c1, c2];
    FoldDiffers();
    TypesDiffer();
    assert [] + [c0] == [c0] && [c0] + [c1] == [c0, c1] && [c0, c1] + [c2] == cs;
    TierSnoc([], c0, GeneralMode);
    TierSnoc([c0], c1, GeneralMode);
    TierSnoc([c0, c1], c2, GeneralMode);
    TierSnoc([], c0, "foo");
    TierSnoc([c0], c1, "foo");
    TierSnoc([c0, c1], c2, "foo");
    assert TierMap([c0, c1], GeneralMode) == map[StringType := "FRED"];
    assert TierConflicts(cs, GeneralMode) == [ConflictMessage(c1, "FRED")];
    assert TierMap(cs, "foo") == map[] && TierConflicts(cs, "foo") == [];
  }

  /** contributions_to_other_modes_are_ignored: a contribution for mode "bar" plays no part in mode "foo". */
  lemma OtherModesScenario()
    ensures var cs := [General(StringType, "FRED"), Contribution(StringType, "bar", "FRED-NON-CONFLICT"),
                       General(RunnableType, MockRunnable)];
      Aliases(cs, "foo") == map[StringType := "FRED", RunnableType := MockRunnable]
      && AliasConflicts(cs, "foo") == []
  {
    var c0, c1, c2 := General(StringType, "FRED"), Contribution(StringType, "bar", "FRED-NON-CONFLICT"),
      General(RunnableType, MockRunnable);
    var cs := [c0, c1, c2];
    FoldDiffers();
    TypesDiffer();
    assert [] + [c0] == [c0] && [c0] + [c1] == [c0, c1] && [c0, c1] + [c2] == cs;
    TierSnoc([], c0, GeneralMode);
    TierSnoc([c0], c1, GeneralMode);
    TierSnoc([c0, c1], c2, GeneralMode);
    TierSnoc([], c0, "foo");
    TierSnoc([c0], c1, "foo");
    TierSnoc([c0, c1], c2, "foo");
  }

  /** mode_specific_contribution_overrides_general_contribution: in mode "BAR" the "bar" contribution wins, silently. */
  lemma ModeSpecificOverridesScenario()
    ensures var cs := [General(StringType, "FRED"), Contribution(StringType, "bar", "FRED-NON-CONFLICT"),
                       General(RunnableType, MockRunnable)];
      Aliases(cs, "BAR") == map[StringType := "FRED-NON-CONFLICT", RunnableType := MockRunnable]
      && AliasConflicts(cs, "BAR") == []
  {
    var c0, c1, c2 := General(StringType, "FRED"), Contribution(StringType, "bar", "FRED-NON-CONFLICT"),
      General(RunnableType, MockRunnable);
    var cs := [c0, c1, c2];
    FoldDiffers();
    TypesDiffer();
    assert [] + [c0] == [c0] && [c0] + [c1] == [c0, c1] && [c0, c1] + [c2] == cs;
    TierSnoc([], c0, GeneralMode);
    TierSnoc([c0], c1, GeneralMode);
    TierSnoc([c0, c1], c2, GeneralMode);
    TierSnoc([], c0, "BAR");
    TierSnoc([c0], c1, "BAR");
    TierSnoc([c0, c1], c2, "BAR");
  }
}

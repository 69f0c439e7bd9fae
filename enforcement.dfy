/**
 * The two declaration-time structural checks of PureShell
 * (`Ruleset.__init_subclass__` and `StatefulEntity.__init_subclass__`).
 * A class body is the ordered list of its own attributes (`vars(cls)`),
 * each with a kind standing for what Python finds in the class dictionary.
 */
module Enforcement {
  import opened Wrappers
  import opened Strings

  /** What a class-body attribute is, as far as the checks can tell. */
  datatype MemberKind =
    | PlainFunction    // a `def` without a decorator
    | StaticMethod     // a `staticmethod` object (callable since Python 3.10)
    | ClassMethod      // a `classmethod` object (not callable)
    | Property         // a `property` object (not callable)
    | ShellDescriptor  // a `PureShellMethod` descriptor made by `shell_method` (not callable)
    | NestedClass      // a class defined in the body (callable)
    | Data             // any other value: numbers, strings, lists, ...

  /**
   * One entry of `vars(cls)`: its name, its kind and whether it carries a
   * truthy `_is_side_effect` attribute.
   */
  datatype Member = Member(name: string, kind: MemberKind, isSideEffect: bool)

  /** The `TypeError`s the two checks raise, naming the class and the member. */
  datatype DeclError =
    | NonStaticMember(cls: string, member: string)
    | UnauthorizedLogic(cls: string, member: string)

  /** `callable(value)` for a class-body attribute. */
  predicate IsCallable(k: MemberKind) {
    k.PlainFunction? || k.StaticMethod? || k.NestedClass?
  }

  /** `side_effect_method(func)`: tags the function and hands it back. */
  function SideEffectMethod(func: Member): (r: Member)
    ensures r.isSideEffect
    ensures r.name == func.name && r.kind == func.kind
  {
    func.(isSideEffect := true)
  }

  // ---------------------------------------------------------------------------
  // Ruleset check
  // ---------------------------------------------------------------------------

  /** A member the Ruleset check lets through: dunder, not callable, or a staticmethod. */
  predicate RulesetAccepts(m: Member) {
    StartsWith(m.name, "__") || !IsCallable(m.kind) || m.kind.StaticMethod?
  }

  /** `k` is the first member the Ruleset check rejects. */
  ghost predicate FirstRulesetOffender(members: seq<Member>, k: int) {
    0 <= k < |members| && !RulesetAccepts(members[k])
    && forall j :: 0 <= j < k ==> RulesetAccepts(members[j])
  }

  /** The loop over `vars(cls)`: `None` when the class is accepted, else the error for the first offender. */
  function RulesetCheck(cls: string, members: seq<Member>): (r: Option<DeclError>)
    ensures r.None? <==> forall i :: 0 <= i < |members| ==> RulesetAccepts(members[i])
    ensures r.Some? ==> exists k :: FirstRulesetOffender(members, k)
                                    && r.value == NonStaticMember(cls, members[k].name)
  {
    if |members| == 0 then None
    else if !RulesetAccepts(members[0]) then
      assert FirstRulesetOffender(members, 0);
      Some(NonStaticMember(cls, members[0].name))
    else
      RulesetOffenderShifts(members);
      RulesetCheck(cls, members[1..])
  }

  /** An offender of the tail is, one position later, an offender of the whole list. */
  lemma RulesetOffenderShifts(members: seq<Member>)
    requires |members| > 0 && RulesetAccepts(members[0])
    ensures forall k :: FirstRulesetOffender(members[1..], k) ==> FirstRulesetOffender(members, k + 1)
  {
    assert forall i :: 1 <= i < |members| ==> members[i] == members[1..][i - 1];
  }

  // ---------------------------------------------------------------------------
  // StatefulEntity check
  // ---------------------------------------------------------------------------

  /** Names the StatefulEntity check does not inspect: dunder, single-underscore and the two provider slots. */
  predicate SkippedByEntityCheck(name: string) {
    StartsWith(name, "__") || StartsWith(name, "_") || name == "_rules" || name == "_instance_rules"
  }

  /** A member the StatefulEntity check lets through. */
  predicate EntityAccepts(m: Member) {
    SkippedByEntityCheck(m.name) || m.kind.ShellDescriptor? || m.isSideEffect
    || m.kind.Property? || !IsCallable(m.kind)
  }

  /** `k` is the first member the StatefulEntity check rejects. */
  ghost predicate FirstEntityOffender(members: seq<Member>, k: int) {
    0 <= k < |members| && !EntityAccepts(members[k])
    && forall j :: 0 <= j < k ==> EntityAccepts(members[j])
  }

  /** The loop over `vars(cls)` of a StatefulEntity subclass. */
  function EntityCheck(cls: string, members: seq<Member>): (r: Option<DeclError>)
    ensures r.None? <==> forall i :: 0 <= i < |members| ==> EntityAccepts(members[i])
    ensures r.Some? ==> exists k :: FirstEntityOffender(members, k)
                                    && r.value == UnauthorizedLogic(cls, members[k].name)
  {
    if |members| == 0 then None
    else if !EntityAccepts(members[0]) then
      assert FirstEntityOffender(members, 0);
      Some(UnauthorizedLogic(cls, members[0].name))
    else
      EntityOffenderShifts(members);
      EntityCheck(cls, members[1..])
  }

  /** An offender of the tail is, one position later, an offender of the whole list. */
  lemma EntityOffenderShifts(members: seq<Member>)
    requires |members| > 0 && EntityAccepts(members[0])
    ensures forall k :: FirstEntityOffender(members[1..], k) ==> FirstEntityOffender(members, k + 1)
  {
    assert forall i :: 1 <= i < |members| ==> members[i] == members[1..][i - 1];
  }

  /**
   * The three skip conditions collapse to one: every skipped name starts with
   * an underscore, so single-underscore helpers are never inspected.
   */
  lemma SkippedNamesAreUnderscored(name: string)
    ensures SkippedByEntityCheck(name) <==> StartsWith(name, "_")
  {
    if StartsWith(name, "__") {
      assert name[..1] == name[..2][..1];
    }
  }

  /**
   * What each kind of member meets in the StatefulEntity check: a public
   * callable that is neither a shell method, nor tagged, nor a property is
   * the only thing rejected.
   */
  lemma EntityCheckRejectsOnlyUntaggedPublicCallables(m: Member)
    ensures !EntityAccepts(m) <==>
      !StartsWith(m.name, "_") && !m.isSideEffect
      && (m.kind.PlainFunction? || m.kind.StaticMethod? || m.kind.NestedClass?)
  {
    SkippedNamesAreUnderscored(m.name);
  }

  /** Single-underscore callables are still checked by the Ruleset check, unlike the entity check. */
  lemma RulesetChecksSingleUnderscoreNames()
    ensures !RulesetAccepts(Member("_helper", PlainFunction, false))
    ensures EntityAccepts(Member("_helper", PlainFunction, false))
  {
    assert "_helper"[..2] == "_h";
    assert "_helper"[..1] == "_";
  }

  /** `class RogueRules(Ruleset)` with an instance method `rogue_rule` is refused, naming it. */
  lemma RogueRulesRejected()
    ensures RulesetCheck("RogueRules", [Member("__module__", Data, false),
                                        Member("__doc__", Data, false),
                                        Member("rogue_rule", PlainFunction, false)])
            == Some(NonStaticMember("RogueRules", "rogue_rule"))
  {
    assert "rogue_rule"[..2] == "ro";
  }

  /**
   * Neither check inspects non-callable members: a class body of classmethods
   * (whatever their logic) and data attributes, under any names, passes both.
   */
  lemma ClassMethodsAndDataPassBothChecks(cls: string, members: seq<Member>)
    requires forall i :: 0 <= i < |members| ==> members[i].kind.ClassMethod? || members[i].kind.Data?
    ensures RulesetCheck(cls, members) == None
    ensures EntityCheck(cls, members) == None
  {
    assert forall i :: 0 <= i < |members| ==> !IsCallable(members[i].kind);
  }

  /** `class RogueEntity(StatefulEntity)` with an undecorated `rogue_method` is refused, naming it. */
  lemma RogueEntityRejected()
    ensures EntityCheck("RogueEntity", [Member("__module__", Data, false),
                                        Member("__doc__", Data, false),
                                        Member("rogue_method", PlainFunction, false)])
            == Some(UnauthorizedLogic("RogueEntity", "rogue_method"))
  {
    assert "__module__"[..2] == "__" && "__doc__"[..2] == "__";
    assert "rogue_method"[..1] == "r" && "rogue_method"[..2] == "ro";
  }
}

/**
 * The configurable-bot example: two Rulesets with the same function names,
 * and a `ConfigurableBot` entity with no class default whose bindings
 * resolve through the ruleset instance injected into `_instance_rules`.
 */
module DynamicBehaviorExample {
  import opened Wrappers
  import opened Strings
  import opened Enforcement
  import opened PureShell

  /** A `BotState` dataclass instance, as a value. */
  datatype BotStateValue = BotStateValue(name: string, energyLevel: int, mood: string, log: seq<string>)

  /** `BotState(name=name)`: full energy, neutral mood, empty log. */
  function InitialBotState(name: string): (s: BotStateValue)
    ensures s.name == name && s.energyLevel == 100 && s.mood == "neutral" && s.log == []
  {
    BotStateValue(name, 100, "neutral", [])
  }

  /** Whether a stimulus greets the bot: `"hello" in stimulus.lower()`. */
  predicate Greets(stimulus: string) {
    Contains(Lower(stimulus), "hello")
  }

  // ---------------------------------------------------------------------------
  // The rules, on values
  // ---------------------------------------------------------------------------

  /** `FriendlyBotRules.respond`: logs the response; happy when greeted, otherwise curious. */
  function FriendlyRespond(s: BotStateValue, stimulus: string): (r: BotStateValue)
    ensures r.log == s.log + ["Friendly response to: " + stimulus]
    ensures r.mood == (if Greets(stimulus) then "happy" else "curious")
    ensures r.name == s.name && r.energyLevel == s.energyLevel
  {
    var logged := s.(log := s.log + ["Friendly response to: " + stimulus]);
    if Greets(stimulus) then logged.(mood := "happy") else logged.(mood := "curious")
  }

  /** `FriendlyBotRules.perform_action`: one log line, five energy less, with no lower bound. */
  function FriendlyPerformAction(s: BotStateValue): (r: BotStateValue)
    ensures r.log == s.log + ["Friendly action performed."]
    ensures r.energyLevel == s.energyLevel - 5
    ensures r.name == s.name && r.mood == s.mood
  {
    s.(log := s.log + ["Friendly action performed."], energyLevel := s.energyLevel - 5)
  }

  /** `AggressiveBotRules.respond`: logs the response; annoyed when greeted, otherwise hostile. */
  function AggressiveRespond(s: BotStateValue, stimulus: string): (r: BotStateValue)
    ensures r.log == s.log + ["Aggressive response to: " + stimulus]
    ensures r.mood == (if Greets(stimulus) then "annoyed" else "hostile")
    ensures r.name == s.name && r.energyLevel == s.energyLevel
  {
    var logged := s.(log := s.log + ["Aggressive response to: " + stimulus]);
    if Greets(stimulus) then logged.(mood := "annoyed") else logged.(mood := "hostile")
  }

  /** `AggressiveBotRules.perform_action`: one log line, fifteen energy less, with no lower bound. */
  function AggressivePerformAction(s: BotStateValue): (r: BotStateValue)
    ensures r.log == s.log + ["Aggressive action performed."]
    ensures r.energyLevel == s.energyLevel - 15
    ensures r.name == s.name && r.mood == s.mood
  {
    s.(log := s.log + ["Aggressive action performed."], energyLevel := s.energyLevel - 15)
  }

  // ---------------------------------------------------------------------------
  // The rules, in place
  // ---------------------------------------------------------------------------

  /** The mutable `BotState` object the rules update in place. */
  class BotState {
    var name: string
    var energyLevel: int
    var mood: string
    var log: seq<string>

    constructor (name: string)
      ensures Value() == InitialBotState(name)
    {
      this.name := name;
      energyLevel := 100;
      mood := "neutral";
      log := [];
    }

    function Value(): BotStateValue
      reads this
    {
      BotStateValue(name, energyLevel, mood, log)
    }
  }

  /** `FriendlyBotRules.respond` on the object: mutates it and returns the same object. */
  method FriendlyRespondInPlace(state: BotState, stimulus: string) returns (r: BotState)
    modifies state
    ensures r == state && state.Value() == FriendlyRespond(old(state.Value()), stimulus)
  {
    state.log := state.log + ["Friendly response to: " + stimulus];
    if Contains(Lower(stimulus), "hello") {
      state.mood := "happy";
    } else {
      state.mood := "curious";
    }
    r := state;
  }

  /** `FriendlyBotRules.perform_action` on the object. */
  method FriendlyPerformActionInPlace(state: BotState) returns (r: BotState)
    modifies state
    ensures r == state && state.Value() == FriendlyPerformAction(old(state.Value()))
  {
    state.log := state.log + ["Friendly action performed."];
    state.energyLevel := state.energyLevel - 5;
    r := state;
  }

  /** `AggressiveBotRules.respond` on the object. */
  method AggressiveRespondInPlace(state: BotState, stimulus: string) returns (r: BotState)
    modifies state
    ensures r == state && state.Value() == AggressiveRespond(old(state.Value()), stimulus)
  {
    state.log := state.log + ["Aggressive response to: " + stimulus];
    if Contains(Lower(stimulus), "hello") {
      state.mood := "annoyed";
    } else {
      state.mood := "hostile";
    }
    r := state;
  }

  /** `AggressiveBotRules.perform_action` on the object. */
  method AggressivePerformActionInPlace(state: BotState) returns (r: BotState)
    modifies state
    ensures r == state && state.Value() == AggressivePerformAction(old(state.Value()))
  {
    state.log := state.log + ["Aggressive action performed."];
    state.energyLevel := state.energyLevel - 15;
    r := state;
  }

  // ---------------------------------------------------------------------------
  // The rulesets as providers
  // ---------------------------------------------------------------------------

  /** The values a bot holds and its rules exchange. */
  datatype BotValue = State(state: BotStateValue) | Stimulus(text: string)

  /** The two rulesets of the example. */
  datatype BotRuleset = FriendlyBotRules | AggressiveBotRules

  /** The ruleset's `respond` on values. */
  function Respond(rules: BotRuleset, s: BotStateValue, stimulus: string): BotStateValue {
    match rules
    case FriendlyBotRules => FriendlyRespond(s, stimulus)
    case AggressiveBotRules => AggressiveRespond(s, stimulus)
  }

  /** The ruleset's `perform_action` on values. */
  function PerformAction(rules: BotRuleset, s: BotStateValue): BotStateValue {
    match rules
    case FriendlyBotRules => FriendlyPerformAction(s)
    case AggressiveBotRules => AggressivePerformAction(s)
  }

  /** What one `perform_action` costs in energy. */
  function ActionCost(rules: BotRuleset): int {
    match rules
    case FriendlyBotRules => 5
    case AggressiveBotRules => 15
  }

  /** `respond(state, stimulus)` as the dispatcher calls it; other argument shapes raise `TypeError`. */
  function RespondRule(rules: BotRuleset): Fn<BotValue> {
    (args: seq<BotValue>) =>
      if |args| == 2 && args[0].State? && args[1].Stimulus? then Returned(State(Respond(rules, args[0].state, args[1].text)))
      else Raised("TypeError")
  }

  /** `perform_action(state)` as the dispatcher calls it; other argument shapes raise `TypeError`. */
  function PerformActionRule(rules: BotRuleset): Fn<BotValue> {
    (args: seq<BotValue>) =>
      if |args| == 1 && args[0].State? then Returned(State(PerformAction(rules, args[0].state)))
      else Raised("TypeError")
  }

  /** `respond` returns the ruleset's next state on a (state, stimulus) call and raises on any other shape. */
  lemma RespondRuleAdapts(rules: BotRuleset, args: seq<BotValue>)
    ensures RespondRule(rules)(args).Returned? <==> |args| == 2 && args[0].State? && args[1].Stimulus?
    ensures RespondRule(rules)(args).Returned? ==>
      RespondRule(rules)(args).value == State(Respond(rules, args[0].state, args[1].text))
    ensures RespondRule(rules)(args).Raised? ==> RespondRule(rules)(args).exception == "TypeError"
  {
  }

  /** `perform_action` returns the ruleset's next state on a (state) call and raises on any other shape. */
  lemma PerformActionRuleAdapts(rules: BotRuleset, args: seq<BotValue>)
    ensures PerformActionRule(rules)(args).Returned? <==> |args| == 1 && args[0].State?
    ensures PerformActionRule(rules)(args).Returned? ==>
      PerformActionRule(rules)(args).value == State(PerformAction(rules, args[0].state))
    ensures PerformActionRule(rules)(args).Raised? ==> PerformActionRule(rules)(args).exception == "TypeError"
  {
  }

  /** The class body of either ruleset: two staticmethods. */
  const BotRulesMembers: seq<Member> := [
    Member("__module__", Data, false),
    Member("__doc__", Data, false),
    Member("respond", StaticMethod, false),
    Member("perform_action", StaticMethod, false)
  ]

  function RulesetName(rules: BotRuleset): string {
    match rules
    case FriendlyBotRules => "FriendlyBotRules"
    case AggressiveBotRules => "AggressiveBotRules"
  }

  /** An instance of the ruleset (`FriendlyBotRules()`, `AggressiveBotRules()`), as a provider. */
  function RulesInstance(rules: BotRuleset): Provider<BotValue> {
    Provider(RulesetName(rules), map["respond" := RespondRule(rules), "perform_action" := PerformActionRule(rules)])
  }

  /** The instance is named after its class and exposes exactly the two rule functions, under the names the bindings use. */
  lemma RulesInstanceExposes(rules: BotRuleset)
    ensures RulesInstance(rules).name == RulesetName(rules)
    ensures RulesInstance(rules).fns.Keys == {"respond", "perform_action"}
    ensures RulesInstance(rules).fns["respond"] == RespondRule(rules)
    ensures RulesInstance(rules).fns["perform_action"] == PerformActionRule(rules)
  {
    var m := map["respond" := RespondRule(rules), "perform_action" := PerformActionRule(rules)];
    assert m.Keys == {"respond"} + {"perform_action"};
  }

  /** Both rulesets pass the Ruleset check, and their providers are what declaring them yields. */
  lemma BotRulesetsAccepted(rules: BotRuleset)
    ensures ExposesStaticMethods(BotRulesMembers, RulesInstance(rules).fns)
            && DeclareRuleset(RulesetName(rules), BotRulesMembers, RulesInstance(rules).fns) == Ok(RulesInstance(rules))
  {
    assert "__module__"[..2] == "__" && "__doc__"[..2] == "__";
    assert "respond"[..2] == "re" && "perform_action"[..2] == "pe";
    assert BotRulesMembers[2].name == "respond" && BotRulesMembers[3].name == "perform_action";
    assert forall i :: 0 <= i < |BotRulesMembers| ==> RulesetAccepts(BotRulesMembers[i]);
  }

  // ---------------------------------------------------------------------------
  // ConfigurableBot
  // ---------------------------------------------------------------------------

  /** `@shell_method("state", mutates=True) def respond(self, stimulus)` */
  function RespondBinding(): (b: Binding<BotValue>)
    ensures b.funcOrName == Named("respond") && b.liveAttrNames == ["state"] && b.mutates
  {
    ShellMethod(Single("state"), None, true, "respond")
  }

  /** `@shell_method("state", mutates=True) def perform_action(self)` */
  function PerformActionBinding(): (b: Binding<BotValue>)
    ensures b.funcOrName == Named("perform_action") && b.liveAttrNames == ["state"] && b.mutates
  {
    ShellMethod(Single("state"), None, true, "perform_action")
  }

  /** The class body of `ConfigurableBot`. */
  const ConfigurableBotMembers: seq<Member> := [
    Member("__module__", Data, false),
    Member("__doc__", Data, false),
    Member("__init__", PlainFunction, false),
    Member("respond", ShellDescriptor, false),
    Member("perform_action", ShellDescriptor, false),
    SideEffectMethod(Member("display_status", PlainFunction, false))
  ]

  lemma ConfigurableBotDeclarationAccepted()
    ensures EntityCheck("ConfigurableBot", ConfigurableBotMembers) == None
  {
    assert "__module__"[..2] == "__" && "__doc__"[..2] == "__" && "__init__"[..2] == "__";
    assert "respond"[..1] == "r" && "perform_action"[..1] == "p";
    assert forall i :: 0 <= i < |ConfigurableBotMembers| ==> EntityAccepts(ConfigurableBotMembers[i]);
  }

  /** A `ConfigurableBot` as the dispatcher sees it: no class default, `rules` injected as the override. */
  ghost predicate IsBot(v: EntityView<BotValue>, rules: BotRuleset) {
    && v.entityClass == "ConfigurableBot"
    && v.classRules.None?
    && v.instanceRules == Some(RulesInstance(rules))
    && HoldsState(v)
  }

  /** The bot's `state` field holds a `BotState`. */
  ghost predicate HoldsState(v: EntityView<BotValue>) {
    "state" in v.fields && v.fields["state"].State?
  }

  /** Without the injected override, nothing resolves: the class has no default. */
  lemma BotWithoutOverrideFails(v: EntityView<BotValue>, args: seq<BotValue>)
    requires v.entityClass == "ConfigurableBot" && v.classRules.None? && v.instanceRules.None?
    ensures Dispatch(v, RespondBinding(), args)
            == CallOutcome(Err(RulesetProviderError("ConfigurableBot", "respond")), v.fields)
    ensures Dispatch(v, PerformActionBinding(), args)
            == CallOutcome(Err(RulesetProviderError("ConfigurableBot", "perform_action")), v.fields)
  {
  }

  /** `respond` returns None and stores the injected ruleset's new state back into `state`. */
  lemma RespondStoresBack(v: EntityView<BotValue>, rules: BotRuleset, stimulus: string)
    requires IsBot(v, rules)
    ensures var c := Dispatch(v, RespondBinding(), [Stimulus(stimulus)]);
      && c.result == Ok(None)
      && c.fields == v.fields["state" := State(Respond(rules, v.fields["state"].state, stimulus))]
      && IsBot(v.(fields := c.fields), rules)
  {
    var live := LiveValues(v.fields, ["state"], "ConfigurableBot");
    assert ["state"][0] in v.fields;
    assert live.value == [v.fields["state"]];
  }

  /** `perform_action` returns None and stores the injected ruleset's new state back into `state`. */
  lemma PerformActionStoresBack(v: EntityView<BotValue>, rules: BotRuleset)
    requires IsBot(v, rules)
    ensures var c := Dispatch(v, PerformActionBinding(), []);
      && c.result == Ok(None)
      && c.fields == v.fields["state" := State(PerformAction(rules, v.fields["state"].state))]
      && IsBot(v.(fields := c.fields), rules)
  {
    var live := LiveValues(v.fields, ["state"], "ConfigurableBot");
    assert ["state"][0] in v.fields;
    assert live.value == [v.fields["state"]];
  }

  /**
   * The same binding declarations behave differently per injected ruleset:
   * two bots in the same state end up in different moods after the same stimulus.
   */
  lemma InjectedRulesetDecides(v: EntityView<BotValue>, stimulus: string)
    requires IsBot(v, FriendlyBotRules)
    ensures var friendly := Dispatch(v, RespondBinding(), [Stimulus(stimulus)]);
      var aggressive := Dispatch(v.(instanceRules := Some(RulesInstance(AggressiveBotRules))),
                                 RespondBinding(), [Stimulus(stimulus)]);
      && "state" in friendly.fields && friendly.fields["state"].State?
      && friendly.fields["state"].state.mood in {"happy", "curious"}
      && "state" in aggressive.fields && aggressive.fields["state"].State?
      && aggressive.fields["state"].state.mood in {"annoyed", "hostile"}
  {
    RespondStoresBack(v, FriendlyBotRules, stimulus);
    RespondStoresBack(v.(instanceRules := Some(RulesInstance(AggressiveBotRules))), AggressiveBotRules, stimulus);
  }

  /** `n` runs of the ruleset's `perform_action` on a state value. */
  function ActRepeatedly(rules: BotRuleset, s: BotStateValue, n: nat): BotStateValue
    decreases n
  {
    if n == 0 then s else PerformAction(rules, ActRepeatedly(rules, s, n - 1))
  }

  /**
   * Every `perform_action` appends exactly one log line and costs the
   * ruleset's energy, with no lower bound; the name and mood stay.
   */
  lemma {:induction false} RepeatedActionCost(rules: BotRuleset, s: BotStateValue, n: nat)
    ensures var t := ActRepeatedly(rules, s, n);
      && t.energyLevel == s.energyLevel - ActionCost(rules) * n
      && |t.log| == |s.log| + n
      && t.name == s.name && t.mood == s.mood
    decreases n
  {
    if n > 0 {
      RepeatedActionCost(rules, s, n - 1);
      var c := ActionCost(rules);
      assert c * n == c * (n - 1) + c;
    }
  }

  /** `bot.perform_action()`: the rule's result is stored back into `state`. */
  method PerformActionOnce(bot: Entity<BotValue>, rules: BotRuleset)
    requires IsBot(bot.View(), rules)
    modifies bot
    ensures IsBot(bot.View(), rules)
    ensures bot.fields == old(bot.fields)["state" := State(PerformAction(rules, old(bot.fields["state"].state)))]
  {
    PerformActionStoresBack(bot.View(), rules);
    var acted := bot.Invoke(PerformActionBinding(), []);
  }

  /** `bot.perform_action()` called `n` times: the bot stores `n` runs of its ruleset's rule. */
  method PerformActions(bot: Entity<BotValue>, rules: BotRuleset, n: nat)
    requires IsBot(bot.View(), rules)
    modifies bot
    ensures IsBot(bot.View(), rules)
    ensures bot.fields == old(bot.fields)["state" := State(ActRepeatedly(rules, old(bot.fields["state"].state), n))]
  {
    assert old(bot.fields)["state" := State(ActRepeatedly(rules, old(bot.fields["state"].state), 0))] == bot.fields;
    var i := 0;
    while i < n
      invariant i <= n
      invariant IsBot(bot.View(), rules)
      invariant bot.fields == old(bot.fields)["state" := State(ActRepeatedly(rules, old(bot.fields["state"].state), i))]
    {
      PerformActionOnce(bot, rules);
      i := i + 1;
    }
  }

  /** A stimulus that opens with "Hello" greets the bot. */
  lemma OpeningHelloGreets(stimulus: string)
    requires |stimulus| >= 5 && stimulus[..5] == "Hello"
    ensures Greets(stimulus)
  {
    var l := Lower(stimulus);
    assert stimulus[0] == 'H' && stimulus[1] == 'e' && stimulus[2] == 'l' && stimulus[3] == 'l' && stimulus[4] == 'o';
    assert l[0] == 'h' && l[1] == 'e' && l[2] == 'l' && l[3] == 'l' && l[4] == 'o';
    assert l[..5] == "hello";
  }

  /** `ConfigurableBot(name, rules_instance)`: super().__init__(), then `state`, then the override. */
  method NewConfigurableBot(t: EntityType<BotValue>, name: string, rulesInstance: Provider<BotValue>)
    returns (bot: Entity<BotValue>)
    ensures fresh(bot) && bot.cls == t
    ensures bot.fields == map["state" := State(InitialBotState(name))]
    ensures bot.instanceRules == Some(rulesInstance)
  {
    bot := new Entity(t, map[], None);
    bot.SetField("state", State(InitialBotState(name)));
    bot.SetInstanceRules(Some(rulesInstance));
  }

  /** `class ConfigurableBot(StatefulEntity)`: declared without a class default. */
  method DeclareConfigurableBot() returns (t: EntityType<BotValue>)
    ensures fresh(t) && t.name == "ConfigurableBot" && t.rules == None
  {
    ConfigurableBotDeclarationAccepted();
    var declared := DeclareStatefulEntity<BotValue>("ConfigurableBot", ConfigurableBotMembers);
    if declared.Err? {
      assert false;
      return;
    }
    t := declared.value;
  }

  /** A fresh bot of the given ruleset responds to a stimulus and then acts once. */
  method RespondAndAct(t: EntityType<BotValue>, name: string, rules: BotRuleset, stimulus: string)
    returns (bot: Entity<BotValue>)
    requires t.name == "ConfigurableBot" && t.rules == None
    ensures "state" in bot.fields
    ensures bot.fields["state"] == State(PerformAction(rules, Respond(rules, InitialBotState(name), stimulus)))
  {
    bot := NewConfigurableBot(t, name, RulesInstance(rules));
    RespondStoresBack(bot.View(), rules, stimulus);
    var responded := bot.Invoke(RespondBinding(), [Stimulus(stimulus)]);
    assert responded == Ok(None);
    PerformActionStoresBack(bot.View(), rules);
    var acted := bot.Invoke(PerformActionBinding(), []);
    assert acted == Ok(None);
  }

  /** The friendly bot's state after it is greeted with "Hello there!". */
  lemma FriendlyGreeted()
    ensures Respond(FriendlyBotRules, InitialBotState("Buddy"), "Hello there!")
            == BotStateValue("Buddy", 100, "happy", ["Friendly response to: " + "Hello there!"])
  {
    OpeningHelloGreets("Hello there!");
    var line := "Friendly response to: " + "Hello there!";
    var greeted := Respond(FriendlyBotRules, InitialBotState("Buddy"), "Hello there!");
    assert greeted.log == [] + [line] == [line];
  }

  /** The friendly bot's state after it is greeted with "Hello there!" and acts once. */
  lemma FriendlyGreetingOutcome()
    ensures PerformAction(FriendlyBotRules, Respond(FriendlyBotRules, InitialBotState("Buddy"), "Hello there!"))
            == BotStateValue("Buddy", 95, "happy", ["Friendly response to: " + "Hello there!", "Friendly action performed."])
  {
    FriendlyGreeted();
    var greeted := BotStateValue("Buddy", 100, "happy", ["Friendly response to: " + "Hello there!"]);
    var acted := FriendlyPerformAction(greeted);
    assert acted.log == greeted.log + ["Friendly action performed."];
  }

  /** The aggressive bot's state after it is greeted with "Hello?". */
  lemma AggressiveGreeted()
    ensures Respond(AggressiveBotRules, InitialBotState("Spike"), "Hello?")
            == BotStateValue("Spike", 100, "annoyed", ["Aggressive response to: " + "Hello?"])
  {
    OpeningHelloGreets("Hello?");
    var line := "Aggressive response to: " + "Hello?";
    var greeted := Respond(AggressiveBotRules, InitialBotState("Spike"), "Hello?");
    assert greeted.log == [] + [line] == [line];
  }

  /** The aggressive bot's state after it is greeted with "Hello?" and acts once. */
  lemma AggressiveGreetingOutcome()
    ensures PerformAction(AggressiveBotRules, Respond(AggressiveBotRules, InitialBotState("Spike"), "Hello?"))
            == BotStateValue("Spike", 85, "annoyed", ["Aggressive response to: " + "Hello?", "Aggressive action performed."])
  {
    AggressiveGreeted();
    var greeted := BotStateValue("Spike", 100, "annoyed", ["Aggressive response to: " + "Hello?"]);
    var acted := AggressivePerformAction(greeted);
    assert acted.log == greeted.log + ["Aggressive action performed."];
  }

  /** The demonstration, first half: the friendly bot is greeted and acts once. */
  method DemonstrateFriendly(t: EntityType<BotValue>) returns (buddy: Entity<BotValue>)
    requires t.name == "ConfigurableBot" && t.rules == None
    ensures "state" in buddy.fields
    ensures buddy.fields["state"]
            == State(BotStateValue("Buddy", 95, "happy", ["Friendly response to: " + "Hello there!", "Friendly action performed."]))
  {
    buddy := RespondAndAct(t, "Buddy", FriendlyBotRules, "Hello there!");
    FriendlyGreetingOutcome();
  }

  /** The demonstration, second half: the aggressive bot is greeted and acts once. */
  method DemonstrateAggressive(t: EntityType<BotValue>) returns (spike: Entity<BotValue>)
    requires t.name == "ConfigurableBot" && t.rules == None
    ensures "state" in spike.fields
    ensures spike.fields["state"]
            == State(BotStateValue("Spike", 85, "annoyed", ["Aggressive response to: " + "Hello?", "Aggressive action performed."]))
  {
    spike := RespondAndAct(t, "Spike", AggressiveBotRules, "Hello?");
    AggressiveGreetingOutcome();
  }
}

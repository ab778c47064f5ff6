/**
 * Conversations driven through `SimpleForm.NextActionIdx`, with what its
 * contract lets a caller conclude about them.
 */
module PlanScenarios {
  import opened Wrappers
  import opened Strings
  import opened Plans

  const FlightSlots: SlotSpec := map["origin" := map[AskKey := "utter_ask_origin"]]
  const FlightChats: map<string, ActionName> := map["greet" := "utter_greet"]
  const FlightDomain: Domain := map[Listen := 0, "utter_greet" := 1, "utter_ask_origin" := 2, "utter_done" := 3]
  const NothingFilled: SlotValues := map["origin" := None]

  /**
   * A fresh one-slot form, called twice with nothing filled: it asks for
   * `origin`, then emits the pending listen.
   */
  method AskedFlightForm() returns (form: SimpleForm, asked: Result<nat>, listened: Result<nat>)
    ensures fresh(form) && form.Valid()
    ensures form.slotDict == FlightSlots && form.exitDict == Some(map[])
    ensures form.chitchatDict == Some(FlightChats) && form.detailsIntent == Some([])
    ensures form.queue == [] && form.lastQuestion == Some("origin")
    ensures asked == Success(2) && listened == Success(0)
  {
    form := new SimpleForm("flight", FlightSlots, "utter_done", None, Some(map[]), Some(FlightChats), Some([]), map[], None);

    assert StripPlan("hi") == "hi";
    assert form.RouteFor("hi", Listen) == AskRoute;
    NoFiredRuleKeepsBase(form.requiredSlots, form.rules, NothingFilled);
    asked := form.NextActionIdx(NothingFilled, "hi", Listen, FlightDomain);
    assert form.UnfilledSlots(NothingFilled) == {"origin"};
    OriginQuestions(form);
    assert form.queue == [Name(Listen)];

    listened := form.NextActionIdx(NothingFilled, "hi", "utter_ask_origin", FlightDomain);
  }

  lemma GreetIntentStripped()
    ensures StripPlan("plan_greet") == "greet"
  {
  }

  /** Re-asking `origin` of the flight form: ask, listen, and no follow-up. */
  lemma OriginQuestions(form: SimpleForm)
    requires form.slotDict == FlightSlots && form.lastQuestion == Some("origin")
    ensures form.MakeQuestionQueue("origin") == Success(["utter_ask_origin", Listen])
  {
    assert FollowUpKey !in form.slotDict["origin"];
    assert form.MakeQuestionQueue("origin").value == ["utter_ask_origin", Listen];
  }

  /**
   * A chitchat interruption after that question: the chitchat reply is
   * emitted, and the next call pops the nested question queue, which the
   * domain cannot resolve to an index.
   */
  method ChitchatThenNestedPop() returns (chitchat: Result<nat>, next: Result<nat>)
    ensures chitchat == Success(1)
    ensures next == Failure(UnresolvableBatch(["utter_ask_origin", Listen]))
  {
    var form, _, _ := AskedFlightForm();
    GreetIntentStripped();
    OriginQuestions(form);
    assert form.RouteFor("plan_greet", Listen) == ChitchatRoute;
    chitchat := form.NextActionIdx(NothingFilled, "plan_greet", Listen, FlightDomain);
    assert form.queue == [Batch(["utter_ask_origin", Listen])];

    next := form.NextActionIdx(NothingFilled, "plan_greet", "utter_greet", FlightDomain);
  }

  const TripSlots: SlotSpec := map["transport_mode" := map[AskKey := "utter_ask_mode"]]
  const TripRules: RuleSpec := map["transport_mode" := map[Some("car") := map[NeedKey := ["license_number"]]]]
  const ByCar: SlotValues := map["transport_mode" := Some("car"), "license_number" := None]

  /** With `transport_mode = car` the rule adds `license_number`, which nothing removes. */
  lemma ByCarRequired(table: RuleTable)
    requires CompiledFrom(table, TripRules)
    ensures Required(TripSlots.Keys, table, ByCar) == {"transport_mode", "license_number"}
  {
    assert table.Keys == {("transport_mode", Some("car"))} by {
      assert forall k :: k in table ==> k == ("transport_mode", Some("car"));
    }
    assert table[("transport_mode", Some("car"))] == Rule(Some(["license_number"]), None);
    assert Fires(table, ByCar, "transport_mode");
    assert "license_number" in NeedSet(table[("transport_mode", Some("car"))]);
    assert Needed(table, ByCar, ByCar.Keys) == {"license_number"};
    assert Lost(table, ByCar, ByCar.Keys) == {};
  }

  /**
   * A rule adds a slot that `slot_dict` does not declare: that slot is the
   * only one left to ask, it becomes the last question, and building its
   * question queue fails on the missing key.
   */
  method UndeclaredRuleSlot() returns (r: Result<nat>, asked: Option<SlotName>)
    ensures asked == Some("license_number")
    ensures r == Failure(MissingKey("license_number"))
  {
    var form := new SimpleForm("trip", TripSlots, "utter_done", None, Some(map[]), Some(map[]), Some([]), TripRules, None);
    ByCarRequired(form.rules);
    assert StripPlan("hi") == "hi";
    r := form.NextActionIdx(ByCar, "hi", Listen, map[Listen := 0, "utter_ask_mode" := 1, "utter_done" := 2]);
    asked := form.lastQuestion;
  }
}

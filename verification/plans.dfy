/**
 * The slot-filling form engine `SimpleForm` of rasa_core/policies/plans.py
 * and the completion report of `PlanComplete.run`.
 *
 * The tracker and the domain are passed in as values: the slot values as a
 * map from slot name to an optional value (`None` is a value the tracker
 * can hold), the latest intent and action names as strings, and the
 * domain's `index_for_action` as a map from action name to index.  Python
 * exceptions become `Failure` results; whatever the source had already
 * changed before raising stays changed.
 */
module Plans {
  import opened Wrappers
  import opened Strings

  type Value = string
  type SlotName = string
  type ActionName = string

  /** `tracker.current_slot_values()`: every slot of the domain with its value or `None`. */
  type SlotValues = map<SlotName, Option<Value>>

  /** `domain.index_for_action`: the known action names and their indices. */
  type Domain = map<ActionName, nat>

  /** `slot_dict`: per slot, its attributes (`ask_utt`, `follow_up_action`, `clarify_utt`, ...). */
  type SlotSpec = map<SlotName, map<string, ActionName>>

  /** One leaf of the rule YAML: optional `need` and `lose` lists of slot names. */
  type RuleLeaf = map<string, seq<SlotName>>

  /** The rule YAML: slot -> value -> leaf.  A YAML `null` key is the value `None`. */
  type RuleSpec = map<SlotName, map<Option<Value>, RuleLeaf>>

  /** A compiled rule: `(leaf.get('need'), leaf.get('lose'))`. */
  datatype Rule = Rule(need: Option<seq<SlotName>>, lose: Option<seq<SlotName>>)

  /** The compiled rule table keyed by `(slot, value)`. */
  type RuleTable = map<(SlotName, Option<Value>), Rule>

  /** An entry of the action queue: an action name, or a whole question queue appended as one element. */
  datatype Entry = Name(action: ActionName) | Batch(actions: seq<ActionName>)

  datatype Error =
    | UnknownAction(name: ActionName)        // index_for_action on a name the domain lacks
    | UnresolvableBatch(actions: seq<ActionName>) // index_for_action on a nested list
    | MissingKey(key: string)                // KeyError in a dictionary lookup

  datatype Result<T> = Success(value: T) | Failure(error: Error)

  const Listen: ActionName := "action_listen"
  const AskKey := "ask_utt"
  const FollowUpKey := "follow_up_action"
  const ClarifyKey := "clarify_utt"
  const NeedKey := "need"
  const LoseKey := "lose"
  const PlanMarker := "plan_"
  const ExplainMarker := "utter_explain"

  function Elems<T>(s: seq<T>): (elems: set<T>) {
    set x | x in s
  }

  // ---------------------------------------------------------------------
  // Rule table
  // ---------------------------------------------------------------------

  function RuleOf(leaf: RuleLeaf): (rule: Rule) {
    Rule(Lookup(leaf, NeedKey), Lookup(leaf, LoseKey))
  }

  /** `table` holds exactly one rule per `(slot, value)` of `spec`, built from that leaf. */
  ghost predicate CompiledFrom(table: RuleTable, spec: RuleSpec) {
    && (forall k :: k in table ==> k.0 in spec && k.1 in spec[k.0])
    && (forall s, v :: s in spec && v in spec[s] ==> (s, v) in table && table[(s, v)] == RuleOf(spec[s][v]))
  }

  /** `_process_rules`: flattens the nested rule YAML into a table keyed by `(slot, value)`. */
  method ProcessRules(spec: RuleSpec) returns (table: RuleTable)
    ensures forall s, v :: s in spec && v in spec[s] ==> (s, v) in table
    ensures forall s, v :: s in spec && v in spec[s] ==>
              table[(s, v)].need == Lookup(spec[s][v], NeedKey) && table[(s, v)].lose == Lookup(spec[s][v], LoseKey)
    ensures forall k :: k in table ==> k.0 in spec && k.1 in spec[k.0]
  {
    table := map[];
    var slots := spec.Keys;
    while slots != {}
      invariant slots <= spec.Keys
      invariant forall k :: k in table ==> k.0 in spec && k.1 in spec[k.0] && table[k] == RuleOf(spec[k.0][k.1])
      invariant forall s, v :: s in spec && s !in slots && v in spec[s] ==> (s, v) in table
      decreases slots
    {
      var slot :| slot in slots;
      var values := spec[slot].Keys;
      while values != {}
        invariant values <= spec[slot].Keys
        invariant forall k :: k in table ==> k.0 in spec && k.1 in spec[k.0] && table[k] == RuleOf(spec[k.0][k.1])
        invariant forall s, v :: s in spec && s !in slots && v in spec[s] ==> (s, v) in table
        invariant forall v :: v in spec[slot] && v !in values ==> (slot, v) in table
        decreases values
      {
        var value :| value in values;
        table := table[(slot, value) := RuleOf(spec[slot][value])];
        values := values - {value};
      }
      slots := slots - {slot};
    }
  }

  /** The compiled table is determined by the rule YAML. */
  lemma CompiledTableUnique(t1: RuleTable, t2: RuleTable, spec: RuleSpec)
    requires CompiledFrom(t1, spec) && CompiledFrom(t2, spec)
    ensures t1 == t2
  {
  }

  // ---------------------------------------------------------------------
  // Requirement resolver
  // ---------------------------------------------------------------------

  function NeedSet(rule: Rule): (needs: set<SlotName>) {
    if rule.need.Some? then Elems(rule.need.value) else {}
  }

  function LoseSet(rule: Rule): (losses: set<SlotName>) {
    if rule.lose.Some? then Elems(rule.lose.value) else {}
  }

  /** Slot `slot` currently holds a value that keys a rule (a `None` value included). */
  ghost predicate Fires(table: RuleTable, vals: SlotValues, slot: SlotName) {
    slot in vals && (slot, vals[slot]) in table
  }

  /** Every slot needed by a rule fired by one of `slots`. */
  ghost function Needed(table: RuleTable, vals: SlotValues, slots: set<SlotName>): set<SlotName> {
    set slot, s | slot in slots && Fires(table, vals, slot) && s in NeedSet(table[(slot, vals[slot])]) :: s
  }

  /** Every slot lost by a rule fired by one of `slots`. */
  ghost function Lost(table: RuleTable, vals: SlotValues, slots: set<SlotName>): set<SlotName> {
    set slot, s | slot in slots && Fires(table, vals, slot) && s in LoseSet(table[(slot, vals[slot])]) :: s
  }

  /** The required slots: the base set plus every needed slot, minus every lost slot. */
  ghost function Required(base: set<SlotName>, table: RuleTable, vals: SlotValues): set<SlotName> {
    (base + Needed(table, vals, vals.Keys)) - Lost(table, vals, vals.Keys)
  }

  /** One more slot of the loop adds exactly its fired rule's `need` and `lose` slots. */
  lemma NeededStep(table: RuleTable, vals: SlotValues, done: set<SlotName>, slot: SlotName)
    requires slot in vals
    ensures Needed(table, vals, done + {slot}) ==
              Needed(table, vals, done) + (if Fires(table, vals, slot) then NeedSet(table[(slot, vals[slot])]) else {})
    ensures Lost(table, vals, done + {slot}) ==
              Lost(table, vals, done) + (if Fires(table, vals, slot) then LoseSet(table[(slot, vals[slot])]) else {})
  {
  }

  /** Membership in the required set, both directions. */
  lemma RequiredMembership(base: set<SlotName>, table: RuleTable, vals: SlotValues, s: SlotName)
    ensures s in Required(base, table, vals) <==>
              && (s in base || exists slot :: Fires(table, vals, slot) && s in NeedSet(table[(slot, vals[slot])]))
              && !(exists slot :: Fires(table, vals, slot) && s in LoseSet(table[(slot, vals[slot])]))
  {
  }

  /** Removal wins: a slot lost by any fired rule is never required, whoever else needs it. */
  lemma RemovalWins(base: set<SlotName>, table: RuleTable, vals: SlotValues, slot: SlotName, s: SlotName)
    requires Fires(table, vals, slot) && s in LoseSet(table[(slot, vals[slot])])
    ensures s !in Required(base, table, vals)
  {
  }

  /** With no fired rule the required set is exactly the base set. */
  lemma NoFiredRuleKeepsBase(base: set<SlotName>, table: RuleTable, vals: SlotValues)
    requires forall slot :: slot in vals ==> (slot, vals[slot]) !in table
    ensures Required(base, table, vals) == base
  {
  }

  /** A rule keyed by `None` fires for a slot the tracker holds with no value. */
  lemma NoneValueFiresRule(base: set<SlotName>, table: RuleTable, vals: SlotValues, slot: SlotName, s: SlotName)
    requires slot in vals && vals[slot] == None && (slot, None) in table
    requires s in NeedSet(table[(slot, None)]) && s !in Lost(table, vals, vals.Keys)
    ensures s in Required(base, table, vals)
  {
  }

  // ---------------------------------------------------------------------
  // Routing
  // ---------------------------------------------------------------------

  datatype Route = ExitRoute | ChitchatRoute | DetailsRoute | AskRoute

  /** The intent with the first `plan_`, wherever it occurs, removed. */
  function StripPlan(intent: string): (r: string)
    ensures (forall i: nat :: !OccursAt(intent, PlanMarker, i)) ==> r == intent
    ensures forall i: nat ::
              OccursAt(intent, PlanMarker, i) && (forall j: nat :: j < i ==> !OccursAt(intent, PlanMarker, j)) ==>
                r == intent[..i] + intent[i + |PlanMarker|..]
  {
    ReplaceFirst(intent, PlanMarker, "")
  }

  /**
   * The branch `next_action_idx` takes on an empty queue, in its fixed
   * priority: exit, then chitchat, then details, then ask-or-finish.
   */
  function ChooseRoute(intent: string, latestAction: ActionName, exits: map<string, ActionName>,
                       chats: map<string, ActionName>, details: seq<string>): (route: Route)
    ensures route == ExitRoute <==> intent in exits
    ensures route == ChitchatRoute ==> intent in chats && latestAction !in chats.Values
    ensures route == DetailsRoute ==> intent in details && !Contains(latestAction, ExplainMarker)
    ensures intent !in exits && intent in chats && latestAction !in chats.Values ==> route == ChitchatRoute
    ensures route == AskRoute <==>
              && intent !in exits
              && !(intent in chats && latestAction !in chats.Values)
              && !(intent in details && !Contains(latestAction, ExplainMarker))
  {
    if intent in exits then ExitRoute
    else if intent in chats && latestAction !in chats.Values then ChitchatRoute
    else if intent in details && !Contains(latestAction, ExplainMarker) then DetailsRoute
    else AskRoute
  }

  // ---------------------------------------------------------------------
  // Queue entries
  // ---------------------------------------------------------------------

  /** A question queue: ask, listen, and optionally a follow-up. */
  predicate IsQuestionQueue(q: seq<ActionName>) {
    2 <= |q| <= 3 && q[1] == Listen
  }

  /** `domain.index_for_action(entry)`: a nested list or an unknown name fails. */
  function IndexFor(domain: Domain, entry: Entry): (r: Result<nat>)
    ensures r.Success? <==> entry.Name? && entry.action in domain
    ensures r.Success? ==> r.value == domain[entry.action]
    ensures entry.Batch? ==> r == Failure(UnresolvableBatch(entry.actions))
  {
    match entry
    case Batch(actions) => Failure(UnresolvableBatch(actions))
    case Name(action) => if action in domain then Success(domain[action]) else Failure(UnknownAction(action))
  }

  function Names(actions: seq<ActionName>): (entries: seq<Entry>)
    ensures |entries| == |actions|
    ensures forall i :: 0 <= i < |actions| ==> entries[i] == Name(actions[i])
  {
    seq(|actions|, i requires 0 <= i < |actions| => Name(actions[i]))
  }

  /** A chitchat or details interruption: `first` then the whole question queue as ONE entry, drained once. */
  ghost predicate InterruptOutcome(first: ActionName, questions: Result<seq<ActionName>>, domain: Domain,
                                   r: Result<nat>, queue: seq<Entry>) {
    match questions
    case Success(qq) => r == IndexFor(domain, Name(first)) && queue == [Batch(qq)]
    case Failure(e) => r == Failure(e) && queue == [Name(first)]
  }

  /** Asking a slot: the question queue, drained once. */
  ghost predicate AskOutcome(questions: Result<seq<ActionName>>, domain: Domain, r: Result<nat>, queue: seq<Entry>) {
    match questions
    case Success(qq) => |qq| > 0 && r == IndexFor(domain, Name(qq[0])) && queue == Names(qq[1..])
    case Failure(e) => r == Failure(e) && queue == []
  }

  predicate IsFilled(vals: SlotValues, s: SlotName) {
    s in vals && vals[s].Some?
  }

  // ---------------------------------------------------------------------
  // The form
  // ---------------------------------------------------------------------

  class SimpleForm {
    const name: string
    const slotDict: SlotSpec
    const requiredSlots: set<SlotName>
    const optionalSlots: Option<seq<SlotName>>
    const exitDict: Option<map<string, ActionName>>
    const chitchatDict: Option<map<string, ActionName>>
    const finishAction: ActionName
    const detailsIntent: Option<seq<string>>
    const rulesYaml: RuleSpec
    const rules: RuleTable
    const subject: Option<string>

    var currentRequired: set<SlotName>
    var lastQuestion: Option<SlotName>
    var queue: seq<Entry>

    /**
     * The definition fields agree with each other, and at most two entries
     * are pending; a nested entry is always a whole question queue.
     */
    ghost predicate Valid()
      reads this
    {
      && requiredSlots == slotDict.Keys
      && CompiledFrom(rules, rulesYaml)
      && |queue| <= 2
      && forall i :: 0 <= i < |queue| && queue[i].Batch? ==> IsQuestionQueue(queue[i].actions)
    }

    constructor (name: string, slotDict: SlotSpec, finishAction: ActionName,
                 optionalSlots: Option<seq<SlotName>>, exitDict: Option<map<string, ActionName>>,
                 chitchatDict: Option<map<string, ActionName>>, detailsIntent: Option<seq<string>>,
                 rules: RuleSpec, subject: Option<string>)
      ensures Valid()
      ensures this.name == name && this.slotDict == slotDict && this.finishAction == finishAction
      ensures this.optionalSlots == optionalSlots && this.subject == subject
      ensures this.exitDict == exitDict && this.chitchatDict == chitchatDict && this.detailsIntent == detailsIntent
      ensures requiredSlots == slotDict.Keys && currentRequired == slotDict.Keys
      ensures rulesYaml == rules && CompiledFrom(this.rules, rules)
      ensures lastQuestion == None && queue == []
    {
      var table := ProcessRules(rules);
      this.name := name;
      this.slotDict := slotDict;
      this.currentRequired := slotDict.Keys;
      this.requiredSlots := slotDict.Keys;
      this.optionalSlots := optionalSlots;
      this.exitDict := exitDict;
      this.chitchatDict := chitchatDict;
      this.finishAction := finishAction;
      this.detailsIntent := detailsIntent;
      this.rulesYaml := rules;
      this.rules := table;
      this.subject := subject;
      this.lastQuestion := None;
      this.queue := [];
    }

    /** `_update_requirements`: recomputes `currentRequired` from the tracker's slot values. */
    method UpdateRequirements(slotValues: SlotValues)
      modifies this`currentRequired
      ensures currentRequired == Required(requiredSlots, rules, slotValues)
    {
      var allAdd: seq<SlotName> := [];
      var allTake: seq<SlotName> := [];
      var todo := slotValues.Keys;
      while todo != {}
        invariant todo <= slotValues.Keys
        invariant Elems(allAdd) == Needed(rules, slotValues, slotValues.Keys - todo)
        invariant Elems(allTake) == Lost(rules, slotValues, slotValues.Keys - todo)
        decreases todo
      {
        var slot :| slot in todo;
        NeededStep(rules, slotValues, slotValues.Keys - todo, slot);
        var key := (slot, slotValues[slot]);
        if key in rules {
          var rule := rules[key];
          if rule.need.Some? {
            allAdd := allAdd + rule.need.value;
          }
          if rule.lose.Some? {
            allTake := allTake + rule.lose.value;
          }
        }
        assert slotValues.Keys - (todo - {slot}) == (slotValues.Keys - todo) + {slot};
        todo := todo - {slot};
      }
      assert slotValues.Keys - todo == slotValues.Keys;
      currentRequired := (requiredSlots + Elems(allAdd)) - Elems(allTake);
    }

    /** `check_unfilled_slots`: the required slots with no value. */
    function UnfilledSlots(slotValues: SlotValues): (still: set<SlotName>)
      reads this
      ensures still <= currentRequired
      ensures forall s :: s in still <==> s in currentRequired && !IsFilled(slotValues, s)
    {
      currentRequired - (set s | s in slotValues && slotValues[s].Some?)
    }

    /** `_run_through_queue`: pops the front entry, then resolves it to an index. */
    method RunThroughQueue(domain: Domain) returns (out: Option<Result<nat>>)
      modifies this`queue
      ensures old(queue) == [] ==> out == None && queue == []
      ensures old(queue) != [] ==> out == Some(IndexFor(domain, old(queue)[0])) && queue == old(queue)[1..]
    {
      if queue == [] {
        out := None;
      } else {
        var head := queue[0];
        queue := queue[1..];
        out := Some(IndexFor(domain, head));
      }
    }

    /**
     * `_make_question_queue(question)`: ask `question`, listen, then the
     * follow-up declared by the slot in `lastQuestion` (not by `question`).
     */
    function MakeQuestionQueue(question: SlotName): (r: Result<seq<ActionName>>)
      reads this
      requires lastQuestion.Some?
      ensures r.Success? <==> question in slotDict && AskKey in slotDict[question] && lastQuestion.value in slotDict
      ensures r.Failure? ==> r.error.MissingKey?
      ensures r.Success? ==> IsQuestionQueue(r.value) && r.value[0] == slotDict[question][AskKey]
      ensures r.Success? ==> (|r.value| == 3 <==> FollowUpKey in slotDict[lastQuestion.value])
      ensures r.Success? && |r.value| == 3 ==> r.value[2] == slotDict[lastQuestion.value][FollowUpKey]
    {
      if question !in slotDict then Failure(MissingKey(question))
      else if AskKey !in slotDict[question] then Failure(MissingKey(AskKey))
      else if lastQuestion.value !in slotDict then Failure(MissingKey(lastQuestion.value))
      else
        var follow := slotDict[lastQuestion.value];
        Success([slotDict[question][AskKey], Listen] + if FollowUpKey in follow then [follow[FollowUpKey]] else [])
    }

    /** The branch an empty queue leads to, for these inputs. */
    function RouteFor(latestIntent: string, latestAction: ActionName): (route: Route)
      requires exitDict.Some? && chitchatDict.Some? && detailsIntent.Some?
    {
      ChooseRoute(StripPlan(latestIntent), latestAction, exitDict.value, chitchatDict.value, detailsIntent.value)
    }

    /**
     * The chitchat and details branches of `next_action_idx`: queue `first`,
     * append the question queue for `lastQuestion` as one element, drain once.
     */
    method Interrupt(first: ActionName, domain: Domain) returns (r: Result<nat>)
      requires Valid() && queue == [] && lastQuestion.Some?
      modifies this`queue
      ensures Valid()
      ensures InterruptOutcome(first, MakeQuestionQueue(lastQuestion.value), domain, r, queue)
    {
      queue := [Name(first)];
      var questions := MakeQuestionQueue(lastQuestion.value);
      if questions.Failure? {
        return Failure(questions.error);
      }
      queue := queue + [Batch(questions.value)];
      var out := RunThroughQueue(domain);
      return out.value;
    }

    /**
     * The default branch of `next_action_idx`: finish when no required slot
     * is unfilled, otherwise ask one of the unfilled slots, chosen freely.
     */
    method AskOrFinish(slotValues: SlotValues, domain: Domain) returns (r: Result<nat>)
      requires Valid() && queue == []
      modifies this`queue, this`lastQuestion
      ensures Valid()
      ensures UnfilledSlots(slotValues) == {} ==>
                && r == IndexFor(domain, Name(finishAction))
                && queue == [Name(Listen)]
                && lastQuestion == old(lastQuestion)
      ensures UnfilledSlots(slotValues) != {} ==>
                && lastQuestion.Some?
                && lastQuestion.value in UnfilledSlots(slotValues)
                && AskOutcome(MakeQuestionQueue(lastQuestion.value), domain, r, queue)
    {
      var stillToAsk := UnfilledSlots(slotValues);
      if stillToAsk == {} {
        queue := [Name(finishAction), Name(Listen)];
        var out := RunThroughQueue(domain);
        return out.value;
      } else {
        var chosen :| chosen in stillToAsk;
        lastQuestion := Some(chosen);
        var questions := MakeQuestionQueue(chosen);
        if questions.Failure? {
          return Failure(questions.error);
        }
        queue := Names(questions.value);
        var out := RunThroughQueue(domain);
        return out.value;
      }
    }

    /** `next_action_idx`: one action index per call, draining the queue before deciding anything. */
    method NextActionIdx(slotValues: SlotValues, latestIntent: string, latestAction: ActionName, domain: Domain)
      returns (r: Result<nat>)
      requires Valid()
      requires queue == [] ==> exitDict.Some? && chitchatDict.Some? && detailsIntent.Some?
      requires (&& queue == []
                && exitDict.Some? && chitchatDict.Some? && detailsIntent.Some?
                && RouteFor(latestIntent, latestAction) in {ChitchatRoute, DetailsRoute})
               ==> lastQuestion.Some?
      modifies this
      ensures Valid()
      // Draining: only the pop, nothing else is read or changed.
      ensures old(queue) != [] ==>
                && r == IndexFor(domain, old(queue)[0])
                && queue == old(queue)[1..]
                && lastQuestion == old(lastQuestion)
                && currentRequired == old(currentRequired)
      // Deciding: requirements are recomputed first.
      ensures old(queue) == [] ==> currentRequired == Required(requiredSlots, rules, slotValues)
      ensures old(queue) == [] && RouteFor(latestIntent, latestAction) == ExitRoute ==>
                && r == IndexFor(domain, Name(exitDict.value[StripPlan(latestIntent)]))
                && queue == []
                && lastQuestion == old(lastQuestion)
      ensures old(queue) == [] && RouteFor(latestIntent, latestAction) == ChitchatRoute ==>
                && lastQuestion == old(lastQuestion)
                && InterruptOutcome(chitchatDict.value[StripPlan(latestIntent)],
                                    MakeQuestionQueue(lastQuestion.value), domain, r, queue)
      ensures old(queue) == [] && RouteFor(latestIntent, latestAction) == DetailsRoute ==>
                && lastQuestion == old(lastQuestion)
                && (if lastQuestion.value in slotDict && ClarifyKey in slotDict[lastQuestion.value]
                    then InterruptOutcome(slotDict[lastQuestion.value][ClarifyKey],
                                          MakeQuestionQueue(lastQuestion.value), domain, r, queue)
                    else r.Failure? && r.error.MissingKey? && queue == [])
      ensures old(queue) == [] && RouteFor(latestIntent, latestAction) == AskRoute && UnfilledSlots(slotValues) == {} ==>
                && r == IndexFor(domain, Name(finishAction))
                && queue == [Name(Listen)]
                && lastQuestion == old(lastQuestion)
      ensures old(queue) == [] && RouteFor(latestIntent, latestAction) == AskRoute && UnfilledSlots(slotValues) != {} ==>
                && lastQuestion.Some?
                && lastQuestion.value in UnfilledSlots(slotValues)
                && AskOutcome(MakeQuestionQueue(lastQuestion.value), domain, r, queue)
    {
      var out := RunThroughQueue(domain);
      if out.Some? {
        return out.value;
      }

      var intent := StripPlan(latestIntent);
      UpdateRequirements(slotValues);

      var route := RouteFor(latestIntent, latestAction);
      if route == ExitRoute {
        queue := [Name(exitDict.value[intent])];
        out := RunThroughQueue(domain);
        return out.value;
      } else if route == ChitchatRoute {
        r := Interrupt(chitchatDict.value[intent], domain);
        return;
      } else if route == DetailsRoute {
        var last := lastQuestion.value;
        if last !in slotDict {
          return Failure(MissingKey(last));
        }
        if ClarifyKey !in slotDict[last] {
          return Failure(MissingKey(ClarifyKey));
        }
        r := Interrupt(slotDict[last][ClarifyKey], domain);
        return;
      }

      r := AskOrFinish(slotValues, domain);
    }
  }

  // ---------------------------------------------------------------------
  // PlanComplete
  // ---------------------------------------------------------------------

  /** The events the tracker applies. */
  datatype Event = EndPlan | SlotSet(slot: string, flag: bool)

  /**
   * `PlanComplete.run`: ends the plan, clears `active_plan`, and sets
   * `plan_complete` to whether every currently required slot is filled.
   */
  function PlanCompleteEvents(plan: SimpleForm, slotValues: SlotValues): (events: seq<Event>)
    reads plan
    ensures |events| == 3
    ensures events[0] == EndPlan && events[1] == SlotSet("active_plan", false)
    ensures events[2] == SlotSet("plan_complete", forall s :: s in plan.currentRequired ==> IsFilled(slotValues, s))
  {
    var unfilled := plan.UnfilledSlots(slotValues);
    var complete := |unfilled| == 0;
    [EndPlan, SlotSet("active_plan", false), SlotSet("plan_complete", complete)]
  }
}

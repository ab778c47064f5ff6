# SimpleForm: a verified model of rasa_core's slot-filling plan

This project models `SimpleForm` from `rasa_core/policies/plans.py`. `SimpleForm` is a form ("plan") that fills slots in a
conversation. On each turn the host calls `next_action_idx`, which returns the index of one action. Replies that take
several steps are buffered in a FIFO queue: ask a slot, listen, and maybe run a follow-up. The queue hands out one entry
per call. When the queue is empty, the form does two things:

- It recomputes its required slots. It starts from the slots in `slot_dict`, then applies a rule table keyed by
  `(slot, value)`. Each matching rule adds its `need` slots and removes its `lose` slots.
- It picks one branch, in fixed priority: exit, chitchat, clarification ("details"), then ask an unfilled slot or finish.

`PlanComplete.run` reports whether every required slot is filled. It returns the events that end the plan.

Files:

- `wrappers.dfy`: `Option`, which stands for Python's `None`, and `dict.get`.
- `strings.dfy`: the two Python string operations the form uses. These are the substring test `pat in s` and
  `s.replace(target, replacement, 1)`.
- `plans.dfy`: the rule table and the requirement resolver, which are functions over values. It also holds the
  `SimpleForm` class and the `PlanComplete` events.
  - The class has the mutable fields `currentRequired`, `lastQuestion` and `queue`.
  - Its constant fields are the plan definition.
  - Methods that change state carry `modifies` clauses. Loops carry invariants.
- `scenarios.dfy`: two conversations driven through `NextActionIdx`. Each is proved from that method's contract.

Modelling choices:

- The tracker and the domain are passed in as values:
  - the slot values, as a map from slot name to `Option<Value>`;
  - the latest intent and the latest action name, as strings;
  - `index_for_action`, as a map from action name to index.
- Python exceptions become `Failure` results. These are a `KeyError` in `slot_dict`, a missing `ask_utt` or
  `clarify_utt`, an unknown action name, and a nested list popped from the queue. Any state the source changed
  before raising stays changed in the model:
  - the pop in `_run_through_queue` happens before the lookup;
  - the chitchat queue `[chitchat]` is already set when `_make_question_queue` raises;
  - `last_question` is already set when asking an undeclared slot fails.
- A queue entry is a `Name` or a `Batch`. The chitchat and details branches `append` the whole question queue as
  one nested element. A later pop of that element cannot be resolved, and the model returns `UnresolvableBatch`.
  `PlanScenarios.ChitchatThenNestedPop` shows this on a concrete conversation.
- `np.random.choice` is a free choice (`:|`). The contract only says that the chosen slot is one of the unfilled
  required slots.
- `NextActionIdx` has two preconditions. Where they fail, the source raises an exception that the model does not cover:
  - `exit_dict`, `chitchat_dict` and `details_intent` are required not to be `None` when the queue is empty.
    Otherwise the source raises `AttributeError` when it reads a `None` dictionary or list.
  - `last_question` is required to be set when the chitchat or details branch fires. Otherwise `slot_dict[None]`
    raises `KeyError`.
- `_make_question_queue` takes the follow-up action from the slot in `last_question`, not from its argument. The
  model does the same.
- The `plan_` marker is removed at its first occurrence anywhere in the intent, not only as a prefix.
- Rules match every `(slot, value)` pair of the tracker, including pairs whose value is `None`.
- A missing `need` or `lose` key compiles to `None`, not to an empty list. This follows the code.
- `current_required` and `required_slots` are Python lists, but they are only ever used through `set(...)`. The model
  keeps them as sets.
- With `rules=None`, the constructor fails on `None.items()`, so the model's constructor takes a rule map. As a
  result, the `self.rules is None` guard in `_update_requirements` can never fire. The model leaves it out.

## Model

| member | source | states |
|---|---|---|
| `Wrappers.Lookup` | rasa_core/policies/plans.py:62 | `dict.get`: `Some` exactly when the key is present, holding the stored value |
| `Plans.ProcessRules` | rasa_core/policies/plans.py:58-63 | every nested `rules[slot][value]` is in the table under `(slot, value)`, and nothing else is; its `need` and `lose` are the leaf's `get` results, so a missing key gives `None` |
| `Plans.CompiledTableUnique` | rasa_core/policies/plans.py:58-63 | the compiled table is determined by the rule YAML: two tables compiled from it are equal |
| `Plans.SimpleForm.constructor` | rasa_core/policies/plans.py:40-56 | `current_required` and `required_slots` are the keys of `slot_dict`; the rule table is compiled from `rules`; `last_question` is unset and the queue is empty |
| `Plans.SimpleForm.UpdateRequirements` | rasa_core/policies/plans.py:65-77 | after the loop over the slot values, `currentRequired` is the base set plus every `need` of the matching `(slot, value)` pairs, minus every `lose` of them |
| `Plans.NeededStep` | rasa_core/policies/plans.py:70-76 | processing one more slot adds exactly its matching rule's `need` and `lose` slots to the accumulated sets |
| `Plans.RequiredMembership` | rasa_core/policies/plans.py:77 | a slot is required if and only if it is a base slot or needed by a matching rule, and no matching rule loses it |
| `Plans.RemovalWins` | rasa_core/policies/plans.py:77 | a slot that any matching rule loses is never required, even when another rule needs it |
| `Plans.NoFiredRuleKeepsBase` | rasa_core/policies/plans.py:65-77 | when no `(slot, value)` pair keys a rule, the required set is exactly `required_slots` |
| `Plans.NoneValueFiresRule` | rasa_core/policies/plans.py:70-71 | a rule keyed by `(slot, None)` matches a slot the tracker holds without a value |
| `Plans.SimpleForm.UnfilledSlots` | rasa_core/policies/plans.py:79-82 | the result is a subset of `currentRequired`; a slot is in it if and only if it is required and has no value |
| `Plans.SimpleForm.RunThroughQueue` | rasa_core/policies/plans.py:84-88 | on an empty queue, returns `None` and the queue stays empty; otherwise returns the lookup of the front entry and leaves exactly the tail |
| `Plans.IndexFor` | rasa_core/policies/plans.py:88 | the lookup succeeds if and only if the entry is a name known to the domain; a nested entry always fails |
| `Plans.SimpleForm.MakeQuestionQueue` | rasa_core/policies/plans.py:90-94 | succeeds if and only if the asked slot and its `ask_utt` and the `last_question` slot exist; then it starts `[ask_utt, action_listen]`, has length 2 or 3, and its third element is the follow-up declared by `last_question` |
| `Strings.FindFrom` | rasa_core/policies/plans.py:104 | finds the leftmost occurrence at or after a position, or reports that there is none |
| `Strings.ReplaceFirst` | rasa_core/policies/plans.py:104 | `replace(target, replacement, 1)`: unchanged without an occurrence; otherwise the first occurrence, wherever it is, is replaced |
| `Plans.StripPlan` | rasa_core/policies/plans.py:104 | the intent with the five characters of the first `plan_` removed, wherever that occurrence stands |
| `Strings.ContainsOccurrence` | rasa_core/policies/plans.py:116 | the substring test holds if and only if the pattern occurs at some index |
| `Plans.ChooseRoute` | rasa_core/policies/plans.py:108-119 | exit if and only if the intent is an exit key, whatever else it matches; chitchat never fires right after one of its own actions; details never fires after an `utter_explain` action; ask-or-finish exactly when none of the three fires |
| `Plans.SimpleForm.Interrupt` | rasa_core/policies/plans.py:112-119 | emits the chitchat or clarify action and leaves the question queue as ONE nested entry; if building that queue fails, the queue is left as `[first]` |
| `Plans.SimpleForm.AskOrFinish` | rasa_core/policies/plans.py:121-129 | with no unfilled slot, emits `finish_action` and leaves `[action_listen]`; otherwise `last_question` becomes an unfilled slot, its `ask_utt` is emitted, and the queue is left as listen plus the optional follow-up |
| `Plans.SimpleForm.NextActionIdx` | rasa_core/policies/plans.py:97-129 | a non-empty queue is only popped (requirements and `last_question` untouched); otherwise requirements are recomputed and the exit, chitchat, details or default outcome follows the route; at most two entries stay pending and every nested entry is a question queue |
| `Plans.PlanCompleteEvents` | rasa_core/policies/plans.py:159-169 | `[EndPlan, active_plan := false, plan_complete := c]`, in that order, where `c` holds if and only if every currently required slot is filled |
| `PlanScenarios.AskedFlightForm` | rasa_core/policies/plans.py:121-129 | a one-slot form with nothing filled asks that slot, then emits the pending listen |
| `PlanScenarios.ChitchatThenNestedPop` | rasa_core/policies/plans.py:112-115 | after a question, a chitchat intent emits the chitchat action, and the next call fails on the nested entry |
| `PlanScenarios.ByCarRequired` | rasa_core/policies/plans.py:65-77 | the rule `transport_mode = car -> need license_number` adds `license_number` to the required set |
| `PlanScenarios.UndeclaredRuleSlot` | rasa_core/policies/plans.py:121-129 | a slot added by a rule but missing from `slot_dict` is chosen as the last question, and asking it fails on the missing key |

## Left out

- `ActivatePlan`, `StartPlan` and `EndPlan` are not modelled. They only call tracker and domain methods (`tracker.activate_plan`, `domain._plans.get`) and log. The tracker is not part of this model.
- `as_dict`, the `__str__` methods, the `Plan` base class (which only raises `NotImplementedError`) and the logging are not modelled. None of them has logic.
- The probability distribution of `np.random.choice` is not modelled. The model keeps only the set the choice ranges over.
- The internals of `Domain` and `DialogueStateTracker` are not modelled. They are inputs: slot values, intent and action names, and an action-index map.
- Slot values are modelled as strings (`Value`). Python's equality between values of different types, such as `True == 1` in a rule key, is not modelled.
- `details_intent` is modelled as a list, and the test is list membership. If a configuration gives a string instead, Python's `in` becomes a substring test, which the model does not cover.
- The order of `current_required`, which Python rebuilds from a set, is not modelled. It is only ever read back through `set(...)`.
- `Plans.SimpleForm.NextActionIdx`: the model requires `latest_action_name` to be a string. When it is `None`, the source's substring test raises a `TypeError`. The model does not cover that case.
- `Plans.SimpleForm.NextActionIdx`: the model requires the latest intent name to be a string. For an unclassified message, `parse_data['intent']['name']` is `None`, and `.replace` raises `AttributeError` (rasa_core/policies/plans.py:104). The model does not cover that case.
- `Plans.SimpleForm.NextActionIdx`: the model requires `exit_dict`, `chitchat_dict` and `details_intent` all to be non-`None` on every call that finds the queue empty. The source needs less:
  - the exit route reads only `exit_dict` (rasa_core/policies/plans.py:108-111);
  - `chitchat_dict` is read only off the exit route;
  - `details_intent` is read only off the exit and chitchat routes.
  So a form that leaves the later dictionaries `None` works in the source on the earlier routes but is not covered by the model.
- `Plans.SimpleForm.UpdateRequirements`: slot values are hashable strings in the model. The source tests `(slot, value) in self.rules.keys()` (rasa_core/policies/plans.py:71), which hashes the value. A tracker slot holding a list or a dict raises `TypeError: unhashable type` there, so every call of `next_action_idx` that finds the queue empty fails while such a slot is set. The model has no such error path.

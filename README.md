# NerAgent: a verified model of the named-entity-recognition session agent

`NerAgent` (ner_agent.py) turns questions into per-token entity labels. It has
one public entry point, `answer`, and the type of its argument selects the mode:

* **Interactive mode** (a list). The first element is split by the
  punctuation-aware tokenizer and lemmatized. The result becomes one
  observation with the id `"dummy"`. The labeler labels its lemmas, and the
  reply is the list of `(token, label)` pairs.
* **Batch mode** (an int, and so also a bool). The agent asks the remote
  evaluator for a batch of tasks; the quantity is the configured default when
  the count is `None` or `0`. Each question is split on single spaces and
  lemmatized, the labeler is called once per observation, and the labels are
  joined with `' '` and keyed by task id. The agent attaches those answers to
  a copy of the batch, posts it back, and returns it.
* **Anything else** gives `{"ERROR": "<kpi> parameter error - <str(x)> belongs to unknown type"}`.
* A blanket `except` turns every exception into a map whose only key is `"ERROR"`.

The project has three modules:

* `Python` (python.dfy) covers the Python semantics the agent relies on:
  * exceptions as the failure-compatible `Result` (`Ok` or `Raised`);
  * the dynamically typed argument `Value`;
  * `EqualsZero` for `== 0`, where `False` equals `0`;
  * `str.split(' ')` as `Split`, `' '.join` as `Join` and `zip` as `Zip`, with
    the round-trip lemmas between split and join.
* `NerModel` (ner_model.dfy) holds the data model: `Task`, `TaskBatch`,
  `Observation`, `Payload`, `Answers`, `Reply`. It gives a pure definition of
  each stage:
  * `TaskObservation` and `BatchObservations` for `_preprocess_task` and the
    batch half of `_make_observations`;
  * `HumanObservations` for `_preprocess_humaninput` and the interactive half;
  * `LabelsFor` and `Predictions` for `_get_predictions`;
  * `Keyed`, `BatchAnswers` and `HumanAnswers` for `_make_answers`;
  * `InteractiveReply`, `BatchReply` and `Respond` for `answer`.

  It also states the lemmas about these stages.
* `NerAgentClass` (ner_agent.dfy) holds the class `NerAgent`. Its fields are
  the session fields of the source. Its methods use the source's `append`
  loops and in-place dict filling, and each is proved to compute the matching
  `NerModel` stage. The interactive half of `_make_observations` has no loop,
  so `RunScore` calls `HumanObservations` directly. `RunTest`, `RunScore` and
  `Answer` state the whole new state stage by stage, through the two-state
  predicates `BatchRunDone` and `InteractiveRunDone`: when an exception aborts
  a run, the fields written before it keep their new values and the rest keep
  their old ones. `Answer` is proved to return `Respond(...)`, which depends
  on the call's argument, the configuration and the collaborators. It never
  depends on what an earlier run left in the fields.

The agent depends on these collaborators, which are modelled as follows:

* The tokenizer and the lemmatizer are the function values in `Nlp`. The
  lemmatizer may raise.
* The neural labeler is the `agent` field, an `Option<Labeler>`. It is `None`
  until it is installed, and calling it then raises.
* The HTTP GET and POST are the function values in `Remote`, which is passed
  to each call.

All of these are uninterpreted: nothing about them is assumed beyond their
types. In particular, the lemmatizer is not assumed to preserve length.

Three behaviours of the code are modelled as written:

* `_make_answers` zips observations with predictions and silently truncates
  to the shorter list; no length check is made. `Keyed` does the same.
* The interactive path reads `tasks[0]` and ignores the rest of the list;
  an empty list raises IndexError, and so becomes an `"ERROR"` reply.
* Nothing is assumed about the lemmatizer beyond its type; in particular it
  is not assumed to return one lemma per token.

## Model

| member | source | states |
|---|---|---|
| `Python.JoinSplit` | ner_agent.py:77 | joining the pieces of `question.split(' ')` with `' '` gives the question back exactly |
| `Python.SplitJoin` | ner_agent.py:88 | splitting a `' '`-join of space-free words gives the same words back, so split and join are inverse on both sides |
| `Python.SplitPiecesHaveNoSpace` | ner_agent.py:88 | no token produced by `split(' ')` contains a space |
| `Python.Zip` | ner_agent.py:107 | `zip` has length min of the two lengths and pairs element k of each input |
| `NerModel.RequestedQuantity` | ner_agent.py:55-58 | the GET quantity is the configured default when numtasks is None or equals 0 (so also False), otherwise numtasks itself; it is 0 only if the default is 0 |
| `NerModel.HumanObservations` | ner_agent.py:64-71 | interactive observations: exactly one, id "dummy", input the tokens of `tasks[0]` and question their lemmas; an exception exactly when the list is empty, `tasks[0]` is not a string, or the lemmatizer raises |
| `NerModel.BatchObservationsMeaning` | ner_agent.py:72-78 | batch observations: one per task in order, id copied, input the question split on single spaces (joining it gives the question back), question the lemmas of those pieces; an exception exactly when the lemmatizer raises on some task |
| `NerModel.Predictions` | ner_agent.py:92-98 | as many predictions as observations; entry k is element [0] of the labeler's result for observation k's lemmas; an exception exactly when some call raises (no agent loaded, labeler error, empty result); no observations gives an empty list even without an agent |
| `NerModel.KeyedHasIds` | ner_agent.py:104-111 | every id among the first min(len(obs), len(preds)) observations is a key of the answers dict |
| `NerModel.KeyedOnlyIds` | ner_agent.py:104-111 | every key of the answers dict is the id of one of the zipped observations |
| `NerModel.KeyedLastWins` | ner_agent.py:104-111 | when ids repeat, the entry written by the later pair stays |
| `NerModel.BatchAnswersMeaning` | ner_agent.py:109-114 | batch answers: the stored task batch is returned unchanged with `answers` whose keys are exactly the zipped ids and whose value under each id is its labels joined with `' '`; with no stored batch the copy raises |
| `NerModel.HumanAnswersMeaning` | ner_agent.py:105-108 | interactive answers for the "dummy" observation: `zip(input, pred)`, length min(len(input), len(pred)), element k is (input[k], pred[k]) |
| `NerModel.InteractiveReplyMeaning` | ner_agent.py:144-159 | the interactive reply is the tokens of `tasks[0]` zipped with the labels predicted for their lemmas, iff tokenizing, lemmatizing and labelling succeed; later list elements are ignored |
| `NerModel.BatchReplyMeaning` | ner_agent.py:123-142 | a successful batch reply carries the batch fetched for the requested quantity unchanged; its POST succeeded; its answers hold exactly the fetched task ids |
| `NerModel.BatchReplyAnswer` | ner_agent.py:160-167 | in a successful batch reply, the answer under task i's id (the last task with that id) is the labels predicted for that task's lemmas, joined with `' '` |
| `NerModel.Respond` | ner_agent.py:152-172 | a list gives the interactive pairs exactly when the interactive pipeline succeeds (and then those pairs), an int or bool gives the submitted payload exactly when fetch, observations, predictions and POST succeed (and then that payload), every other case of those two is the catch-all error; any other type gives the ERROR message naming the kpi and str(x) |
| `NerAgentClass.NerAgent.constructor` | ner_agent.py:16-28 | the kpi name and default count come from the configuration; every session field starts as None |
| `NerAgentClass.NerAgent.InstallAgent` | ner_agent.py:48 | the loaded network becomes the agent |
| `NerAgentClass.NerAgent.SetNumtasks` | ner_agent.py:50-51 | numtasks is overwritten with the given value |
| `NerAgentClass.NerAgent.MakeObservations` | ner_agent.py:72-79 | the append loop returns exactly the batch observations of `BatchObservations` |
| `NerAgentClass.NerAgent.GetPredictions` | ner_agent.py:92-98 | the loop with one labeler call per observation returns exactly `Predictions` |
| `NerAgentClass.NerAgent.MakeAnswers` | ner_agent.py:100-114 | the dict-filling loops over the zip return the "dummy" pairs (a KeyError if absent) or the stored batch with the joined answers attached |
| `NerAgentClass.NerAgent.RunScore` | ner_agent.py:144-150 | observations, predictions and answers are overwritten stage by stage with the interactive results; an exception stops the overwriting and nothing else changes |
| `NerAgentClass.NerAgent.RunTest` | ner_agent.py:123-142 | fetches for the requested quantity, then overwrites tasks, session id, numtasks (the batch's total), observations, predictions, answers, score and status code stage by stage |
| `NerAgentClass.NerAgent.Answer` | ner_agent.py:152-172 | returns `Respond(...)`, a value that never depends on earlier runs; a list leaves the new state of `_run_score` and keeps the batch fields; an int or bool leaves the whole new state of `_run_test` started with numtasks set to the argument, also when the reply is the catch-all error; any other type changes nothing |

## Left out

- `init_agent` (ner_agent.py:30-47) is left out: the md5 check, the archive download and unpacking, reading `params.json` and constructing the network are file and network I/O and foreign code. Only its last assignment is modelled, as `InstallAgent`.
- The HTTP GET and POST (ner_agent.py:59-61, 116-121) are left out. They are the uninterpreted `Remote.fetch` and `Remote.submit`. The URL, the `stage` parameter, the headers and JSON decoding are not modelled. A response that is not a task batch (wrong JSON, missing `id`, `total`, `qas`, `question` keys) is not modelled. Such a response would raise and end as an `"ERROR"` reply.
- `TaskBatch` has only the keys `id`, `total` and `qas`. Extra keys of the fetched JSON are not modelled. A fetched batch that already has an `answers` key is not modelled either; in the source `result.update` would overwrite that key.
- The tokenizer, lemmatizer and `predict_for_token_batch` are uninterpreted function values. The source calls the labeler once per observation, in order. The labeler is a pure function here, so the order of its calls cannot be observed in this model.
- The `print` calls (ner_agent.py:101-102, 155, 158, 161, 164) are left out.
- The stack trace in the catch-all reply (ner_agent.py:172) is left out; `Reply.Crashed` stands for that `"ERROR"` map.
- `Respond`: `str(x)` of a value of unknown type is the text carried by `Value.Other`. Python's formatting of floats, dicts and other types is not modelled.
- `deepcopy` is implicit, because Dafny values are immutable.
- The `agent_params` field is never assigned anything but None, so it is not modelled.
- The configuration keeps only the two values the core reads: the kpi name and the default task count. `rest_url` belongs to `Remote`.
- The model has no concurrency, and neither does the source.
- Labels are modelled as strings. A labeler that returned non-string labels would make `' '.join` raise; that case is not modelled.

/** The values the agent works on and a pure definition of each stage of its
    pipeline: building observations, collecting predictions, assembling the
    answers, and the whole reply of the entry point. The class in
    ner_agent.dfy is proved to compute exactly these. */
module NerModel {
  import opened Python

  /** One entry of the batch's `qas` list. */
  datatype Task = Task(id: string, question: string)

  /** The decoded body of the task-fetch response: `id`, `total`, `qas`. */
  datatype TaskBatch = TaskBatch(id: string, total: int, qas: seq<Task>)

  /** `{'id': ..., 'input': ..., 'question': ...}`: `input` holds the surface
      tokens, `question` the lemmas handed to the labeler. */
  datatype Observation = Observation(id: string, input: seq<string>, question: seq<string>)

  /** The label sequence predicted for one observation. */
  type Labels = seq<string>

  /** A deep copy of the task batch with the `answers` key added. */
  datatype Payload = Payload(tasks: TaskBatch, answers: map<string, string>)

  /** What `_make_answers` returns in each mode. */
  datatype Answers = Submission(payload: Payload) | Pairs(pairs: seq<(string, string)>)

  /** The evaluator's reply to the POST: its text and status code. */
  datatype Response = Response(text: string, statusCode: int)

  /** The NLP library functions: nltk's wordpunct_tokenize and the lemmatizer,
      which may raise. */
  datatype Nlp = Nlp(tokenize: string -> seq<string>, lemmatize: seq<string> -> Result<seq<string>>)

  /** `predict_for_token_batch`: a batch of lemma sequences to a batch of labels. */
  type Labeler = seq<seq<string>> -> Result<seq<Labels>>

  /** The remote evaluator: the GET for a requested quantity and the POST of a payload. */
  datatype Remote = Remote(fetch: Value -> Result<TaskBatch>, submit: Payload -> Result<Response>)

  /** What `answer` returns: the token/label pairs, the submitted payload, or
      a map whose only key is "ERROR" (for a wrong argument type, with its
      message; for any exception, with a stack trace that is not modelled). */
  datatype Reply =
    | Labelled(pairs: seq<(string, string)>)
    | Submitted(payload: Payload)
    | ParamError(message: string)
    | Crashed

  const Dummy: string := "dummy"

  /** The `quantity` sent with the GET: the configured default when the
      requested count is None or equal to 0, the requested count otherwise. */
  function RequestedQuantity(numtasks: Option<Value>, default: int): (q: Value)
    ensures numtasks.None? ==> q == Int(default)
    ensures q == Int(default) || (numtasks.Some? && q == numtasks.value)
    ensures numtasks.Some? && !EqualsZero(numtasks.value) ==> q == numtasks.value
    ensures numtasks.Some? && EqualsZero(numtasks.value) ==> q == Int(default)
    ensures EqualsZero(q) ==> default == 0
  {
    if numtasks.None? || EqualsZero(numtasks.value) then Int(default) else numtasks.value
  }

  function PreprocessTask(question: string, nlp: Nlp): Result<seq<string>> {
    nlp.lemmatize(Split(question))
  }

  function PreprocessHumanInput(text: string, nlp: Nlp): Result<seq<string>> {
    nlp.lemmatize(nlp.tokenize(text))
  }

  /** The observation built for one task of a batch. */
  function TaskObservation(t: Task, nlp: Nlp): Result<Observation> {
    var question :- PreprocessTask(t.question, nlp);
    Ok(Observation(t.id, Split(t.question), question))
  }

  /** Batch mode: one observation per task, in order, or the first exception. */
  function BatchObservations(qas: seq<Task>, nlp: Nlp): Result<seq<Observation>> {
    if forall k :: 0 <= k < |qas| ==> TaskObservation(qas[k], nlp).Ok?
    then Ok(seq(|qas|, k requires 0 <= k < |qas| => TaskObservation(qas[k], nlp).value))
    else Raised
  }

  /** Interactive mode: only `tasks[0]` is read; an empty list raises
      IndexError and a non-string raises TypeError in the tokenizer. */
  function HumanObservations(items: seq<Value>, nlp: Nlp): (r: Result<seq<Observation>>)
    ensures r.Ok? <==> |items| > 0 && items[0].Str? && nlp.lemmatize(nlp.tokenize(items[0].s)).Ok?
    ensures r.Ok? ==>
              && |r.value| == 1
              && r.value[0].id == Dummy
              && r.value[0].input == nlp.tokenize(items[0].s)
              && r.value[0].question == nlp.lemmatize(r.value[0].input).value
  {
    if |items| == 0 then Raised
    else
      match items[0]
      case Str(text) =>
        var question :- PreprocessHumanInput(text, nlp);
        Ok([Observation(Dummy, nlp.tokenize(text), question)])
      case _ => Raised
  }

  /** `self.agent.predict_for_token_batch([observation['question']])[0]`:
      an AttributeError while no network is loaded, an IndexError on an empty
      batch of results. */
  function LabelsFor(agent: Option<Labeler>, o: Observation): Result<Labels> {
    match agent
    case None => Raised
    case Some(predict) =>
      var batch :- predict([o.question]);
      if |batch| == 0 then Raised else Ok(batch[0])
  }

  /** One labeler call per observation, in order. */
  function Predictions(agent: Option<Labeler>, obs: seq<Observation>): (r: Result<seq<Labels>>)
    ensures r.Ok? <==> forall k :: 0 <= k < |obs| ==> LabelsFor(agent, obs[k]).Ok?
    ensures r.Ok? ==>
              && |r.value| == |obs|
              && forall k :: 0 <= k < |obs| ==>
                   && agent.Some?
                   && agent.value([obs[k].question]).Ok?
                   && |agent.value([obs[k].question]).value| > 0
                   && r.value[k] == agent.value([obs[k].question]).value[0]
    ensures |obs| == 0 ==> r == Ok([])
  {
    if forall k :: 0 <= k < |obs| ==> LabelsFor(agent, obs[k]).Ok?
    then Ok(seq(|obs|, k requires 0 <= k < |obs| => LabelsFor(agent, obs[k]).value))
    else Raised
  }

  /** The `answers` dict after the loop over `zip(observations, predictions)`:
      each pair writes `f(obs, pred)` under the observation's id, a later
      pair overwriting an earlier one with the same id. */
  function Keyed<V>(obs: seq<Observation>, preds: seq<Labels>, f: (Observation, Labels) -> V): map<string, V>
    decreases |obs|
  {
    var n := Min(|obs|, |preds|);
    if n == 0 then map[]
    else Keyed(obs[..n - 1], preds[..n - 1], f)[obs[n - 1].id := f(obs[n - 1], preds[n - 1])]
  }

  function JoinedLabels(o: Observation, pred: Labels): string {
    Join(pred)
  }

  function PairedTokens(o: Observation, pred: Labels): seq<(string, string)> {
    Zip(o.input, pred)
  }

  /** Batch mode: the joined labels keyed by id, attached to a copy of the
      stored task batch (a TypeError when no batch was ever fetched). */
  function BatchAnswers(obs: seq<Observation>, preds: seq<Labels>, tasks: Option<TaskBatch>): Result<Payload> {
    match tasks
    case None => Raised
    case Some(batch) => Ok(Payload(batch, Keyed(obs, preds, JoinedLabels)))
  }

  /** Interactive mode: the pairs stored under "dummy" (a KeyError if none). */
  function HumanAnswers(obs: seq<Observation>, preds: seq<Labels>): Result<seq<(string, string)>> {
    var answers := Keyed(obs, preds, PairedTokens);
    if Dummy in answers then Ok(answers[Dummy]) else Raised
  }

  function AnswersOf(obs: seq<Observation>, preds: seq<Labels>, humanInput: bool, tasks: Option<TaskBatch>): Result<Answers> {
    if humanInput then
      var pairs :- HumanAnswers(obs, preds);
      Ok(Pairs(pairs))
    else
      var payload :- BatchAnswers(obs, preds, tasks);
      Ok(Submission(payload))
  }

  /** The interactive path of `answer` on a list argument. */
  function InteractiveReply(items: seq<Value>, nlp: Nlp, agent: Option<Labeler>): Result<seq<(string, string)>> {
    var obs :- HumanObservations(items, nlp);
    var preds :- Predictions(agent, obs);
    HumanAnswers(obs, preds)
  }

  /** The GET of `_get_tasks` once `_set_numtasks(count)` has run. */
  function Fetch(count: Value, default: int, remote: Remote): Result<TaskBatch> {
    remote.fetch(RequestedQuantity(Some(count), default))
  }

  /** The batch path of `answer` once the requested count is known. */
  function BatchReply(count: Value, default: int, nlp: Nlp, agent: Option<Labeler>, remote: Remote): Result<Payload> {
    var batch :- Fetch(count, default, remote);
    var obs :- BatchObservations(batch.qas, nlp);
    var preds :- Predictions(agent, obs);
    var payload :- BatchAnswers(obs, preds, Some(batch));
    var response :- remote.submit(payload);
    Ok(payload)
  }

  function UnknownTypeMessage(kpiName: string, text: string): string {
    kpiName + " parameter error - " + text + " belongs to unknown type"
  }

  /** The value `answer` returns: the argument's type alone selects the mode,
      and no exception escapes. */
  function Respond(input: Value, kpiName: string, default: int, nlp: Nlp, agent: Option<Labeler>, remote: Remote): (r: Reply)
    ensures input.List? ==> r.Labelled? || r.Crashed?
    ensures input.List? ==>
              && (r.Labelled? <==> InteractiveReply(input.items, nlp, agent).Ok?)
              && (r.Labelled? ==> r.pairs == InteractiveReply(input.items, nlp, agent).value)
    ensures input.Int? || input.Bool? ==> r.Submitted? || r.Crashed?
    ensures input.Int? || input.Bool? ==>
              && (r.Submitted? <==> BatchReply(input, default, nlp, agent, remote).Ok?)
              && (r.Submitted? ==> r.payload == BatchReply(input, default, nlp, agent, remote).value)
    ensures input.Str? ==> r == ParamError(UnknownTypeMessage(kpiName, input.s))
    ensures input.Other? ==> r == ParamError(UnknownTypeMessage(kpiName, input.text))
  {
    match input
    case List(items) =>
      (match InteractiveReply(items, nlp, agent)
       case Ok(pairs) => Labelled(pairs)
       case Raised => Crashed)
    case Int(_) | Bool(_) =>
      (match BatchReply(input, default, nlp, agent, remote)
       case Ok(payload) => Submitted(payload)
       case Raised => Crashed)
    case Str(s) => ParamError(UnknownTypeMessage(kpiName, s))
    case Other(text) => ParamError(UnknownTypeMessage(kpiName, text))
  }

  // ---------------------------------------------------------------------
  // Properties of the stages

  /** Batch observations: one per task, in order, id copied, `input` the
      question cut at single spaces (so joining it gives the question back),
      `question` the lemmas of those pieces; an exception exactly when the
      lemmatizer raises on some task. */
  lemma BatchObservationsMeaning(qas: seq<Task>, nlp: Nlp)
    ensures BatchObservations(qas, nlp).Ok? <==>
            forall k :: 0 <= k < |qas| ==> nlp.lemmatize(Split(qas[k].question)).Ok?
    ensures BatchObservations(qas, nlp).Ok? ==>
            var obs := BatchObservations(qas, nlp).value;
            && |obs| == |qas|
            && forall k :: 0 <= k < |qas| ==>
                 && obs[k].id == qas[k].id
                 && obs[k].input == Split(qas[k].question)
                 && Join(obs[k].input) == qas[k].question
                 && obs[k].question == nlp.lemmatize(obs[k].input).value
  {
    forall k | 0 <= k < |qas| ensures Join(Split(qas[k].question)) == qas[k].question {
      JoinSplit(qas[k].question);
    }
  }

  /** Index of the last of the first n observations carrying `id`. */
  predicate LastWithId(obs: seq<Observation>, n: nat, i: nat)
    requires i < n <= |obs|
  {
    forall j :: i < j < n ==> obs[j].id != obs[i].id
  }

  /** Every zipped observation's id is a key of the answers map. */
  lemma {:induction false} KeyedHasIds<V>(obs: seq<Observation>, preds: seq<Labels>, f: (Observation, Labels) -> V)
    ensures forall i :: 0 <= i < Min(|obs|, |preds|) ==> obs[i].id in Keyed(obs, preds, f)
    decreases |obs|
  {
    var n := Min(|obs|, |preds|);
    if n > 0 {
      var o, p := obs[..n - 1], preds[..n - 1];
      KeyedHasIds(o, p, f);
      var m := Keyed(o, p, f);
      assert Keyed(obs, preds, f).Keys == m.Keys + {obs[n - 1].id};
      forall i | 0 <= i < n - 1 ensures obs[i].id in m {
        assert o[i] == obs[i];
      }
    }
  }

  /** The answers map has no key other than the zipped observations' ids. */
  lemma {:induction false} KeyedOnlyIds<V>(obs: seq<Observation>, preds: seq<Labels>, f: (Observation, Labels) -> V, id: string)
    requires id in Keyed(obs, preds, f)
    ensures exists i :: 0 <= i < Min(|obs|, |preds|) && obs[i].id == id
    decreases |obs|
  {
    var n := Min(|obs|, |preds|);
    var o, p := obs[..n - 1], preds[..n - 1];
    if id != obs[n - 1].id {
      KeyedOnlyIds(o, p, f, id);
      var i :| 0 <= i < n - 1 && o[i].id == id;
      assert obs[i] == o[i];
    }
  }

  /** Under each id, the value computed from the LAST zipped pair carrying it. */
  lemma {:induction false} KeyedLastWins<V>(obs: seq<Observation>, preds: seq<Labels>, f: (Observation, Labels) -> V, i: nat)
    requires i < Min(|obs|, |preds|) && LastWithId(obs, Min(|obs|, |preds|), i)
    ensures obs[i].id in Keyed(obs, preds, f) && Keyed(obs, preds, f)[obs[i].id] == f(obs[i], preds[i])
    decreases |obs|
  {
    var n := Min(|obs|, |preds|);
    if i < n - 1 {
      var o, p := obs[..n - 1], preds[..n - 1];
      assert obs[n - 1].id != obs[i].id;
      assert LastWithId(o, n - 1, i);
      KeyedLastWins(o, p, f, i);
      assert o[i] == obs[i] && p[i] == preds[i];
    }
  }

  /** The map of a prefix of the zip, as the loop of `_make_answers` builds it. */
  lemma {:induction false} KeyedPrefix<V>(obs: seq<Observation>, preds: seq<Labels>, f: (Observation, Labels) -> V, i: nat)
    requires i < Min(|obs|, |preds|)
    ensures Keyed(obs[..i + 1], preds[..i + 1], f) == Keyed(obs[..i], preds[..i], f)[obs[i].id := f(obs[i], preds[i])]
  {
    assert obs[..i + 1][..i] == obs[..i] && preds[..i + 1][..i] == preds[..i];
  }

  /** Zipping only reads the common prefix of the two lists. */
  lemma {:induction false} KeyedTruncates<V>(obs: seq<Observation>, preds: seq<Labels>, f: (Observation, Labels) -> V)
    ensures var n := Min(|obs|, |preds|);
            Keyed(obs, preds, f) == Keyed(obs[..n], preds[..n], f)
  {
    var n := Min(|obs|, |preds|);
    if n > 0 {
      assert obs[..n][..n - 1] == obs[..n - 1] && preds[..n][..n - 1] == preds[..n - 1];
    }
  }

  /** The batch answers: for every zipped position whose id is not repeated
      later, the answer under that id is its labels joined with ' '; there
      are no other keys, and the task batch is carried over unchanged. */
  lemma BatchAnswersMeaning(obs: seq<Observation>, preds: seq<Labels>, batch: TaskBatch)
    ensures var n := Min(|obs|, |preds|);
            var p := BatchAnswers(obs, preds, Some(batch));
            && p.Ok?
            && p.value.tasks == batch
            && (forall i :: 0 <= i < n ==> obs[i].id in p.value.answers)
            && (forall id :: id in p.value.answers ==> exists i :: 0 <= i < n && obs[i].id == id)
            && forall i :: 0 <= i < n && LastWithId(obs, n, i) ==> p.value.answers[obs[i].id] == Join(preds[i])
    ensures BatchAnswers(obs, preds, None) == Raised
  {
    var n := Min(|obs|, |preds|);
    var m := Keyed(obs, preds, JoinedLabels);
    KeyedHasIds(obs, preds, JoinedLabels);
    forall id | id in m ensures exists i :: 0 <= i < n && obs[i].id == id {
      KeyedOnlyIds(obs, preds, JoinedLabels, id);
    }
    forall i | 0 <= i < n && LastWithId(obs, n, i) ensures m[obs[i].id] == Join(preds[i]) {
      KeyedLastWins(obs, preds, JoinedLabels, i);
    }
  }

  /** Interactive answers for the one observation and its prediction:
      `zip(input, pred)`, of length min(|input|, |pred|). */
  lemma HumanAnswersMeaning(o: Observation, pred: Labels)
    requires o.id == Dummy
    ensures var r := HumanAnswers([o], [pred]);
            && r.Ok?
            && |r.value| == Min(|o.input|, |pred|)
            && forall k :: 0 <= k < |r.value| ==> r.value[k] == (o.input[k], pred[k])
  {
    assert [o][..0] == [] && [pred][..0] == [];
  }

  /** End to end, interactive mode: the reply is the tokens of `items[0]`
      zipped with the labeler's labels for their lemmas, and it is an
      exception exactly when one of those steps raises. */
  lemma InteractiveReplyMeaning(items: seq<Value>, nlp: Nlp, agent: Option<Labeler>)
    ensures InteractiveReply(items, nlp, agent).Ok? <==>
            && |items| > 0 && items[0].Str?
            && nlp.lemmatize(nlp.tokenize(items[0].s)).Ok?
            && LabelsFor(agent, Observation(Dummy, nlp.tokenize(items[0].s), nlp.lemmatize(nlp.tokenize(items[0].s)).value)).Ok?
    ensures InteractiveReply(items, nlp, agent).Ok? ==>
            var tokens := nlp.tokenize(items[0].s);
            var o := Observation(Dummy, tokens, nlp.lemmatize(tokens).value);
            InteractiveReply(items, nlp, agent).value == Zip(tokens, LabelsFor(agent, o).value)
    ensures |items| > 0 ==> InteractiveReply(items, nlp, agent) == InteractiveReply([items[0]], nlp, agent)
  {
    var ho := HumanObservations(items, nlp);
    if ho.Ok? {
      var o := ho.value[0];
      var pr := Predictions(agent, ho.value);
      if pr.Ok? {
        HumanAnswersMeaning(o, pr.value[0]);
        assert ho.value == [o] && pr.value == [pr.value[0]];
      } else {
        assert !LabelsFor(agent, ho.value[0]).Ok?;
      }
    }
  }

  /** End to end, batch mode: the fetch for the requested quantity and the
      POST both succeeded, the payload carries the fetched batch unchanged,
      and its answers hold exactly the ids of the fetched tasks. */
  lemma BatchReplyMeaning(count: Value, default: int, nlp: Nlp, agent: Option<Labeler>, remote: Remote)
    requires BatchReply(count, default, nlp, agent, remote).Ok?
    ensures Fetch(count, default, remote).Ok?
    ensures var payload := BatchReply(count, default, nlp, agent, remote).value;
            && payload.tasks == Fetch(count, default, remote).value
            && remote.submit(payload).Ok?
    ensures var payload := BatchReply(count, default, nlp, agent, remote).value;
            var qas := Fetch(count, default, remote).value.qas;
            && (forall i :: 0 <= i < |qas| ==> qas[i].id in payload.answers)
            && (forall id :: id in payload.answers ==> exists i :: 0 <= i < |qas| && qas[i].id == id)
  {
    var batch := Fetch(count, default, remote).value;
    var qas := batch.qas;
    var obs := BatchObservations(qas, nlp).value;
    var preds := Predictions(agent, obs).value;
    assert BatchReply(count, default, nlp, agent, remote).value == Payload(batch, Keyed(obs, preds, JoinedLabels));
    BatchObservationsMeaning(qas, nlp);
    BatchAnswersMeaning(obs, preds, batch);
    assert Min(|obs|, |preds|) == |qas|;
    assert forall i :: 0 <= i < |qas| ==> obs[i].id == qas[i].id;
  }

  /** End to end, batch mode, per task: under the id of task i (the last
      task carrying that id) the payload holds the labels the labeler gave
      for that task's lemmas, joined with ' ', so answers follow the order
      of the fetched tasks and are never crossed between them. */
  lemma BatchReplyAnswer(count: Value, default: int, nlp: Nlp, agent: Option<Labeler>, remote: Remote, i: nat)
    requires BatchReply(count, default, nlp, agent, remote).Ok?
    requires Fetch(count, default, remote).Ok?
    requires var qas := Fetch(count, default, remote).value.qas;
             i < |qas| && forall j :: i < j < |qas| ==> qas[j].id != qas[i].id
    ensures var qas := Fetch(count, default, remote).value.qas;
            var payload := BatchReply(count, default, nlp, agent, remote).value;
            && TaskObservation(qas[i], nlp).Ok?
            && LabelsFor(agent, TaskObservation(qas[i], nlp).value).Ok?
            && qas[i].id in payload.answers
            && payload.answers[qas[i].id] == Join(LabelsFor(agent, TaskObservation(qas[i], nlp).value).value)
  {
    var batch := Fetch(count, default, remote).value;
    var qas := batch.qas;
    var obs := BatchObservations(qas, nlp).value;
    var preds := Predictions(agent, obs).value;
    assert BatchReply(count, default, nlp, agent, remote).value == Payload(batch, Keyed(obs, preds, JoinedLabels));
    assert |obs| == |qas| && |preds| == |obs|;
    assert forall j :: 0 <= j < |qas| ==> obs[j].id == qas[j].id;
    assert LastWithId(obs, |qas|, i);
    KeyedLastWins(obs, preds, JoinedLabels, i);
  }
}

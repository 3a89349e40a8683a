/** The agent object: its session fields, overwritten by every run, and the
    methods that build observations, predictions and answers with loops.
    Each method is proved to compute the corresponding stage of NerModel. */
module NerAgentClass {
  import opened Python
  import opened NerModel

  class NerAgent {
    /** From the configuration, which is deep-copied and never changed. */
    const kpiName: string
    const testTasksNumber: int

    /** The loaded network; None until it is installed. */
    var agent: Option<Labeler>

    /** The snapshot of the most recent run. */
    var sessionId: Option<string>
    var numtasks: Option<Value>
    var tasks: Option<TaskBatch>
    var observations: Option<seq<Observation>>
    var predictions: Option<seq<Labels>>
    var answers: Option<Answers>
    var score: Option<string>
    var responseCode: Option<int>

    constructor (kpiName: string, testTasksNumber: int)
      ensures this.kpiName == kpiName && this.testTasksNumber == testTasksNumber
      ensures agent == None && sessionId == None && numtasks == None && tasks == None
      ensures observations == None && predictions == None && answers == None
      ensures score == None && responseCode == None
    {
      this.kpiName := kpiName;
      this.testTasksNumber := testTasksNumber;
      agent := None;
      sessionId := None;
      numtasks := None;
      tasks := None;
      observations := None;
      predictions := None;
      answers := None;
      score := None;
      responseCode := None;
    }

    /** The last step of loading the model: the network becomes the agent. */
    method InstallAgent(network: Labeler)
      modifies this`agent
      ensures agent == Some(network)
    {
      agent := Some(network);
    }

    method SetNumtasks(n: Value)
      modifies this`numtasks
      ensures numtasks == Some(n)
    {
      numtasks := Some(n);
    }

    /** Batch mode of `_make_observations`: appends one observation per task. */
    method MakeObservations(batch: TaskBatch, nlp: Nlp) returns (r: Result<seq<Observation>>)
      ensures r == BatchObservations(batch.qas, nlp)
    {
      var qas := batch.qas;
      var obs: seq<Observation> := [];
      var i := 0;
      while i < |qas|
        invariant 0 <= i <= |qas|
        invariant |obs| == i
        invariant forall k :: 0 <= k < i ==> TaskObservation(qas[k], nlp) == Ok(obs[k])
      {
        var question := PreprocessTask(qas[i].question, nlp);
        if question.Raised? {
          return Raised;
        }
        obs := obs + [Observation(qas[i].id, Split(qas[i].question), question.value)];
        i := i + 1;
      }
      assert obs == BatchObservations(qas, nlp).value;
      r := Ok(obs);
    }

    /** `_get_predictions`: one labeler call per observation, in order. */
    method GetPredictions(obs: seq<Observation>) returns (r: Result<seq<Labels>>)
      ensures r == Predictions(agent, obs)
    {
      var preds: seq<Labels> := [];
      var i := 0;
      while i < |obs|
        invariant 0 <= i <= |obs|
        invariant |preds| == i
        invariant forall k :: 0 <= k < i ==> LabelsFor(agent, obs[k]) == Ok(preds[k])
      {
        var predict := LabelsFor(agent, obs[i]);
        if predict.Raised? {
          return Raised;
        }
        preds := preds + [predict.value];
        i := i + 1;
      }
      assert preds == Predictions(agent, obs).value;
      r := Ok(preds);
    }

    /** `_make_answers`: fills the answers dict over the zip of the two lists,
        then returns the "dummy" pairs or a copy of the stored task batch
        with the answers attached. */
    method MakeAnswers(obs: seq<Observation>, preds: seq<Labels>, humanInput: bool) returns (r: Result<Answers>)
      ensures r == AnswersOf(obs, preds, humanInput, tasks)
    {
      var n := Min(|obs|, |preds|);
      KeyedTruncates(obs, preds, PairedTokens);
      KeyedTruncates(obs, preds, JoinedLabels);
      if humanInput {
        var pairs: map<string, seq<(string, string)>> := map[];
        var i := 0;
        while i < n
          invariant 0 <= i <= n
          invariant pairs == Keyed(obs[..i], preds[..i], PairedTokens)
        {
          KeyedPrefix(obs, preds, PairedTokens, i);
          pairs := pairs[obs[i].id := Zip(obs[i].input, preds[i])];
          i := i + 1;
        }
        if Dummy !in pairs {
          return Raised;
        }
        r := Ok(Pairs(pairs[Dummy]));
      } else {
        var joined: map<string, string> := map[];
        var i := 0;
        while i < n
          invariant 0 <= i <= n
          invariant joined == Keyed(obs[..i], preds[..i], JoinedLabels)
        {
          KeyedPrefix(obs, preds, JoinedLabels, i);
          joined := joined[obs[i].id := Join(preds[i])];
          i := i + 1;
        }
        match tasks
        case None =>
          r := Raised;
        case Some(batch) =>
          r := Ok(Submission(Payload(batch, joined)));
      }
    }

    /** The state `_run_score` leaves: observations, predictions and answers
        are overwritten stage by stage; from the first stage that raises on,
        the fields keep their old values, and `ok` says no stage raised. */
    twostate predicate InteractiveRunDone(items: seq<Value>, nlp: Nlp, ok: bool)
      reads this
    {
      var o := HumanObservations(items, nlp);
      var p := if o.Ok? then Predictions(agent, o.value) else Raised;
      var a := if p.Ok? then HumanAnswers(o.value, p.value) else Raised;
      && ok == a.Ok?
      && observations == (if o.Ok? then Some(o.value) else old(observations))
      && predictions == (if p.Ok? then Some(p.value) else old(predictions))
      && answers == (if a.Ok? then Some(Pairs(a.value)) else old(answers))
    }

    /** The state `_run_test` leaves when it starts with `requested` in
        `numtasks`: all eight session fields overwritten stage by stage from
        the fetch for the requested quantity; from the first stage that
        raises on, the fields keep the values they had when the run began. */
    twostate predicate BatchRunDone(requested: Option<Value>, nlp: Nlp, remote: Remote, ok: bool)
      reads this
    {
      var f := remote.fetch(RequestedQuantity(requested, testTasksNumber));
      var o := if f.Ok? then BatchObservations(f.value.qas, nlp) else Raised;
      var p := if o.Ok? then Predictions(agent, o.value) else Raised;
      var a := if p.Ok? then BatchAnswers(o.value, p.value, Some(f.value)) else Raised;
      var s := if a.Ok? then remote.submit(a.value) else Raised;
      && ok == s.Ok?
      && tasks == (if f.Ok? then Some(f.value) else old(tasks))
      && sessionId == (if f.Ok? then Some(f.value.id) else old(sessionId))
      && numtasks == (if f.Ok? then Some(Int(f.value.total)) else requested)
      && observations == (if o.Ok? then Some(o.value) else old(observations))
      && predictions == (if p.Ok? then Some(p.value) else old(predictions))
      && answers == (if a.Ok? then Some(Submission(a.value)) else old(answers))
      && score == (if s.Ok? then Some(s.value.text) else old(score))
      && responseCode == (if s.Ok? then Some(s.value.statusCode) else old(responseCode))
    }

    /** `_run_score`: the interactive pipeline; each stage's result is
        stored as soon as it is computed, so an exception leaves the later
        fields as they were. */
    method RunScore(items: seq<Value>, nlp: Nlp) returns (ok: bool)
      modifies this`observations, this`predictions, this`answers
      ensures InteractiveRunDone(items, nlp, ok)
    {
      var obs := HumanObservations(items, nlp);
      if obs.Raised? {
        return false;
      }
      observations := Some(obs.value);
      var preds := GetPredictions(obs.value);
      if preds.Raised? {
        return false;
      }
      predictions := Some(preds.value);
      var ans := MakeAnswers(obs.value, preds.value, true);
      if ans.Raised? {
        return false;
      }
      answers := Some(ans.value);
      ok := true;
    }

    /** `_run_test`: fetch, observe, predict, assemble, submit; the session
        fields are overwritten stage by stage. */
    method RunTest(nlp: Nlp, remote: Remote) returns (ok: bool)
      modifies this`tasks, this`sessionId, this`numtasks, this`observations
      modifies this`predictions, this`answers, this`score, this`responseCode
      ensures BatchRunDone(old(numtasks), nlp, remote, ok)
    {
      var fetched := remote.fetch(RequestedQuantity(numtasks, testTasksNumber));
      if fetched.Raised? {
        return false;
      }
      var batch := fetched.value;
      tasks := Some(batch);
      sessionId := Some(batch.id);
      numtasks := Some(Int(batch.total));

      var obs := MakeObservations(batch, nlp);
      if obs.Raised? {
        return false;
      }
      observations := Some(obs.value);

      var preds := GetPredictions(obs.value);
      if preds.Raised? {
        return false;
      }
      predictions := Some(preds.value);

      var ans := MakeAnswers(obs.value, preds.value, false);
      if ans.Raised? {
        return false;
      }
      answers := Some(ans.value);

      var response := remote.submit(ans.value.payload);
      if response.Raised? {
        return false;
      }
      score := Some(response.value.text);
      responseCode := Some(response.value.statusCode);
      ok := true;
    }

    /** `answer`: the argument's type selects the mode; every exception
        becomes Crashed, so the reply is always a value. The reply depends on
        this call's argument, the network and the collaborators only, never
        on what an earlier run left in the fields. */
    method Answer(input: Value, nlp: Nlp, remote: Remote) returns (reply: Reply)
      modifies this`tasks, this`sessionId, this`numtasks, this`observations
      modifies this`predictions, this`answers, this`score, this`responseCode
      ensures reply == Respond(input, kpiName, testTasksNumber, nlp, agent, remote)
      ensures input.List? ==>
                && InteractiveRunDone(input.items, nlp, !reply.Crashed?)
                && tasks == old(tasks) && sessionId == old(sessionId) && numtasks == old(numtasks)
                && score == old(score) && responseCode == old(responseCode)
      ensures input.Int? || input.Bool? ==> BatchRunDone(Some(input), nlp, remote, !reply.Crashed?)
      ensures input.Str? || input.Other? ==> unchanged(this)
    {
      match input
      case List(items) =>
        var ok := RunScore(items, nlp);
        if !ok {
          return Crashed;
        }
        reply := Labelled(answers.value.pairs);
      case Int(_) | Bool(_) =>
        SetNumtasks(input);
        var ok := RunTest(nlp, remote);
        if !ok {
          return Crashed;
        }
        reply := Submitted(Payload(tasks.value, answers.value.payload.answers));
      case Str(s) =>
        reply := ParamError(UnknownTypeMessage(kpiName, s));
      case Other(text) =>
        reply := ParamError(UnknownTypeMessage(kpiName, text));
    }
  }
}

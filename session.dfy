/** The two-page flow held in the session state: the page being shown and
    the last predicted AQI, with the predict and back transitions. */
module Session {

  import opened Wrappers
  import opened Geography
  import opened Encoder
  import opened Severity

  datatype Page = InputPage | ResultPage

  /** What the opaque regression model does with a vector: it returns its
      outputs, or it raises. */
  datatype ModelReply = Returned(outputs: seq<real>) | Raised(reason: string)

  /** The trained model, as a black box from feature vector to reply. */
  type Model = seq<real> -> ModelReply

  /** Why the guarded prediction failed: the model raised, or its output
      had no first element to read. */
  datatype Failure = ModelRaised(reason: string) | NoOutput

  /** Result of the guarded `model.predict(...)[0]`. */
  datatype Prediction = Predicted(aqi: real) | Failed(failure: Failure)

  /** What pressing "Predict" leads to. */
  datatype Outcome =
    | Ignored                        // the button is not on the page being shown
    | Moved(aqi: real)               // AQI stored, result page next
    | Rejected(check: Validation)    // the city/country check failed
    | PredictionFailed(failure: Failure)

  /** The two session attributes; either may be absent. */
  datatype State = State(page: Option<Page>, aqi: Option<real>)

  /** A session before the script has run for the first time. */
  const Empty: State := State(None, None)

  /** The prologue run on every script execution: set the page to the input
      page when no page is stored yet, otherwise leave everything alone. */
  function Start(s: State): (s': State)
    ensures s'.page.Some? && s'.aqi == s.aqi
    ensures s.page.Some? ==> s' == s
    ensures s.page.None? ==> s'.page == Some(InputPage)
  {
    if s.page.None? then State(Some(InputPage), s.aqi) else s
  }

  /** The `try` block: ask the model, then read the first output; a raise
      is reported with its reason, an empty output as having no output. */
  function CallModel(reply: ModelReply): (p: Prediction)
    ensures p.Predicted? <==> reply.Returned? && |reply.outputs| > 0
    ensures p.Predicted? ==> p.aqi == reply.outputs[0]
    ensures reply.Raised? ==> p == Failed(ModelRaised(reply.reason))
    ensures reply.Returned? && |reply.outputs| == 0 ==> p == Failed(NoOutput)
  {
    match reply
    case Raised(e) => Failed(ModelRaised(e))
    case Returned(outs) => if |outs| == 0 then Failed(NoOutput) else Predicted(outs[0])
  }

  /** A request that passes validation and gets a first output from the
      model. */
  predicate Succeeds(t: Table, model: Model, r: Readings, country: string, city: string)
  {
    Validate(t, country, city) == Accepted && CallModel(model(Encode(t, r, country, city))).Predicted?
  }

  /** Pressing "Predict": only on the input page, only after validation
      passes and the model answers does the session move to the result page
      holding the model's first output; in every other case the state is
      left exactly as it was. Off the input page the press is ignored; a
      failed check is reported with its verdict; a failed model call is
      reported with its failure, the raised reason included. */
  function PredictStep(t: Table, model: Model, s: State, r: Readings, country: string, city: string): (res: (State, Outcome))
    ensures res.1.Moved? <==> s.page == Some(InputPage) && Succeeds(t, model, r, country, city)
    ensures res.1.Moved? ==> res.0 == State(Some(ResultPage), Some(res.1.aqi))
    ensures res.1.Moved? ==> res.1.aqi == model(Encode(t, r, country, city)).outputs[0]
    ensures !res.1.Moved? ==> res.0 == s
    ensures res.1.Rejected? <==> s.page == Some(InputPage) && Validate(t, country, city) != Accepted
    ensures res.1.Rejected? ==> res.1.check == Validate(t, country, city)
    ensures res.1.Ignored? <==> s.page != Some(InputPage)
    ensures res.1.PredictionFailed? <==>
              s.page == Some(InputPage) && Validate(t, country, city) == Accepted &&
              CallModel(model(Encode(t, r, country, city))).Failed?
    ensures res.1.PredictionFailed? ==> res.1.failure == CallModel(model(Encode(t, r, country, city))).failure
  {
    if s.page != Some(InputPage) then (s, Ignored)
    else
      var check := Validate(t, country, city);
      if check != Accepted then (s, Rejected(check))
      else match CallModel(model(Encode(t, r, country, city)))
        case Predicted(a) => (State(Some(ResultPage), Some(a)), Moved(a))
        case Failed(f) => (s, PredictionFailed(f))
  }

  /** Pressing "Back": only on the result page, back to the input page; the
      stored AQI is kept. */
  function BackStep(s: State): (s': State)
    ensures s'.aqi == s.aqi && s'.page != Some(ResultPage)
    ensures s.page == Some(ResultPage) ==> s'.page == Some(InputPage)
    ensures s.page != Some(ResultPage) ==> s' == s
  {
    if s.page == Some(ResultPage) then State(Some(InputPage), s.aqi) else s
  }

  /** What the result page shows: the stored AQI and its banner; None when
      the result page is not the one being shown. */
  function ResultScreen(s: State): (view: Option<(real, Banner)>)
    ensures view.Some? <==> s.page == Some(ResultPage) && s.aqi.Some?
    ensures view.Some? ==> view.value.0 == s.aqi.value &&
                           exists b :: InBand(b, s.aqi.value) && view.value.1 == BannerOf(b)
  {
    if s.page == Some(ResultPage) && s.aqi.Some? then Some((s.aqi.value, Decide(s.aqi.value))) else None
  }

  /** One user interaction: the script reruns its prologue, then handles
      at most one button press. */
  datatype Action = Refresh | PressPredict(r: Readings, country: string, city: string) | PressBack

  /** After any interaction a page is stored; Back and Refresh never
      change the AQI and Back never leaves the result page showing; the
      stored AQI only changes through a predict pressed on the input page
      that validated and got an answer, and then it is that answer. Such a
      predict always moves to the result page, and Back on the result page
      always returns to the input page. No other interaction changes the
      state the prologue left. */
  function Step(t: Table, model: Model, s: State, a: Action): (s': State)
    ensures s'.page.Some?
    ensures Consistent(s) ==> Consistent(s')
    ensures !a.PressPredict? ==> s'.aqi == s.aqi
    ensures a.PressBack? ==> s'.page != Some(ResultPage)
    ensures s'.aqi != s.aqi ==>
              a.PressPredict? && Start(s).page == Some(InputPage) &&
              Succeeds(t, model, a.r, a.country, a.city) &&
              s'.aqi == Some(ActionAqi(t, model, a))
    ensures s'.page == Some(ResultPage) && s.page != Some(ResultPage) ==>
              a.PressPredict? && Succeeds(t, model, a.r, a.country, a.city) &&
              s'.aqi == Some(ActionAqi(t, model, a))
    ensures a.PressPredict? && Start(s).page == Some(InputPage) && Succeeds(t, model, a.r, a.country, a.city) ==>
              s' == State(Some(ResultPage), Some(ActionAqi(t, model, a)))
    ensures a.PressBack? && s.page == Some(ResultPage) ==> s' == State(Some(InputPage), s.aqi)
    ensures s' != Start(s) ==>
              (a.PressPredict? && Start(s).page == Some(InputPage) && Succeeds(t, model, a.r, a.country, a.city)) ||
              (a.PressBack? && Start(s).page == Some(ResultPage))
  {
    var s0 := Start(s);
    match a
    case Refresh => s0
    case PressPredict(r, country, city) => PredictStep(t, model, s0, r, country, city).0
    case PressBack => BackStep(s0)
  }

  /** The state after a sequence of interactions: no interaction changes
      nothing, any interaction leaves a page stored, consistency is kept
      and a stored AQI is never dropped. */
  function Run(t: Table, model: Model, s: State, acts: seq<Action>): (s': State)
    ensures acts == [] ==> s' == s
    ensures acts != [] ==> s'.page.Some?
    ensures Consistent(s) ==> Consistent(s')
    ensures s.aqi.Some? ==> s'.aqi.Some?
  {
    if acts == [] then s else Step(t, model, Run(t, model, s, acts[..|acts| - 1]), acts[|acts| - 1])
  }

  /** The result page is never shown without an AQI to show. */
  predicate Consistent(s: State)
  {
    s.page == Some(ResultPage) ==> s.aqi.Some?
  }

  /** The AQI the model gave for a predict action. */
  function ActionAqi(t: Table, model: Model, a: Action): real
    requires a.PressPredict? && Succeeds(t, model, a.r, a.country, a.city)
  {
    model(Encode(t, a.r, a.country, a.city)).outputs[0]
  }

  /** The k-th action is a predict, pressed on the input page of the
      session built by the actions before it, that validated and got an
      answer: a predict that moved the session. */
  predicate MovedAt(t: Table, model: Model, acts: seq<Action>, k: int)
  {
    0 <= k < |acts| && acts[k].PressPredict? &&
    Start(Run(t, model, Empty, acts[..k])).page == Some(InputPage) &&
    Succeeds(t, model, acts[k].r, acts[k].country, acts[k].city)
  }

  /** Ordering guarantee: from an empty session, whatever the interactions,
      a stored AQI is the model's output for some earlier predict that
      moved the session, and the result page is only ever shown with such
      an AQI. */
  lemma {:induction false} AqiComesFromSuccessfulPredict(t: Table, model: Model, acts: seq<Action>)
    ensures Consistent(Run(t, model, Empty, acts))
    ensures Run(t, model, Empty, acts).aqi.Some? ==>
              exists k :: MovedAt(t, model, acts, k) &&
                          Run(t, model, Empty, acts).aqi.value == ActionAqi(t, model, acts[k])
  {
    if acts != [] {
      var pre := acts[..|acts| - 1];
      var last := acts[|acts| - 1];
      var prev := Run(t, model, Empty, pre);
      AqiComesFromSuccessfulPredict(t, model, pre);
      var s := Run(t, model, Empty, acts);
      if s.aqi.Some? {
        if s.aqi == prev.aqi {
          var k :| MovedAt(t, model, pre, k) && prev.aqi.value == ActionAqi(t, model, pre[k]);
          assert acts[k] == pre[k] && acts[..k] == pre[..k];
          assert MovedAt(t, model, acts, k);
        } else {
          assert acts[..|acts| - 1] == pre;
          assert MovedAt(t, model, acts, |acts| - 1);
        }
      }
    }
  }

  /** Back on the input page changes nothing. */
  lemma BackOnInputIsNoop(s: State)
    requires s.page == Some(InputPage)
    ensures BackStep(s) == s
  {
  }

  /** Back and predict again with the same inputs and the same model: the
      same vector is built and the same AQI stored again. */
  lemma RepredictAfterBack(t: Table, model: Model, s: State, r: Readings, country: string, city: string)
    requires PredictStep(t, model, s, r, country, city).1.Moved?
    ensures var (s1, o1) := PredictStep(t, model, s, r, country, city);
            PredictStep(t, model, BackStep(s1), r, country, city) == (s1, o1)
  {
  }

  /** On the result page, an AQI of at most 50 is shown as Good. */
  lemma GoodScreen(aqi: real)
    requires aqi <= GoodUpTo
    ensures ResultScreen(State(Some(ResultPage), Some(aqi))) == Some((aqi, BannerOf(Good)))
  {
  }

  /** A request for Chennai, India with a model answering 42.0: the
      session moves to the result page with AQI 42.0, shown as Good. */
  lemma ChennaiScenario(model: Model, r: Readings)
    requires model(Encode(CountryCityMap, r, "India", "Chennai")) == Returned([42.0])
    ensures PredictStep(CountryCityMap, model, State(Some(InputPage), None), r, "India", "Chennai")
         == (State(Some(ResultPage), Some(42.0)), Moved(42.0))
    ensures ResultScreen(State(Some(ResultPage), Some(42.0))) == Some((42.0, BannerOf(Good)))
  {
    ChennaiAccepted();
    GoodScreen(42.0);
  }

  /** Dubai is not a US city: the request is rejected naming both, and the
      session stays as it was. */
  lemma UsaDubaiRejected(model: Model, s: State, r: Readings)
    requires s.page == Some(InputPage)
    ensures PredictStep(CountryCityMap, model, s, r, "USA", "Dubai") == (s, Rejected(InvalidCity("Dubai", "USA")))
  {
    assert "Dubai" !in CountryCityMap[0].cities;
    UnlistedCityRejected(CountryCityMap, 0, "Dubai");
  }

  /** The per-session state object, updated in place by the actions. */
  class SessionState {
    var page: Option<Page>
    var aqi: Option<real>

    function Snapshot(): State
      reads this
    {
      State(page, aqi)
    }

    /** A new session holds no attributes. */
    constructor ()
      ensures Snapshot() == Empty
    {
      page := None;
      aqi := None;
    }

    /** The script prologue. */
    method InitPage()
      modifies this
      ensures Snapshot() == Start(old(Snapshot()))
    {
      if page.None? {
        page := Some(InputPage);
      }
    }

    /** The "Predict" button handler. */
    method Predict(t: Table, model: Model, r: Readings, country: string, city: string) returns (outcome: Outcome)
      modifies this
      ensures (Snapshot(), outcome) == PredictStep(t, model, old(Snapshot()), r, country, city)
      ensures outcome.Moved? ==> page == Some(ResultPage) && aqi == Some(outcome.aqi)
      ensures !outcome.Moved? ==> page == old(page) && aqi == old(aqi)
    {
      if page != Some(InputPage) {
        return Ignored;
      }
      var check := Validate(t, country, city);
      if check != Accepted {
        return Rejected(check);
      }
      var vector := Encode(t, r, country, city);
      match model(vector)
      case Raised(e) =>
        outcome := PredictionFailed(ModelRaised(e));
      case Returned(prediction) =>
        if |prediction| == 0 {
          outcome := PredictionFailed(NoOutput);
        } else {
          aqi := Some(prediction[0]);
          page := Some(ResultPage);
          outcome := Moved(prediction[0]);
        }
    }

    /** The "Back" button handler. */
    method Back()
      modifies this
      ensures Snapshot() == BackStep(old(Snapshot()))
    {
      if page == Some(ResultPage) {
        page := Some(InputPage);
      }
    }
  }

  /** A whole sample session driven through the object: open the app,
      predict Chennai, India with a model answering 42.0, read the result
      screen, go back. */
  method ChennaiSession(model: Model, r: Readings) returns (screen: Option<(real, Banner)>, after: State)
    requires model(Encode(CountryCityMap, r, "India", "Chennai")) == Returned([42.0])
    ensures screen == Some((42.0, BannerOf(Good)))
    ensures after == State(Some(InputPage), Some(42.0))
  {
    var session := new SessionState();
    session.InitPage();
    ChennaiScenario(model, r);
    var outcome := session.Predict(CountryCityMap, model, r, "India", "Chennai");
    screen := ResultScreen(session.Snapshot());
    session.Back();
    after := session.Snapshot();
  }
}

/**
 * The translation-job flow of `doTranslate`, `get_translation_status` and
 * `get_translation`, lifted out of the AJAX plumbing. Every server reply is a
 * value; every callback is a pure function from the reply (and the current
 * job key) to the abstract actions the callback performs, in order, and to
 * the job state it leaves behind. A scheduled poll is an action, not real
 * time; when its timer fires that is an event of its own.
 *
 * None of the callbacks looks at the job state, so the dispatch functions do
 * not take it: a reply is acted upon whatever job it belongs to, and a second
 * click starts a second key request while the first job is still running.
 */
module TranslationJob {
  import opened Options
  import opened Config

  /** Where the flow stands: named after the last callback that moved it. */
  datatype JobState =
    | Idle              // nothing requested yet
    | KeyRequested      // the translate button sent POST /key/get
    | KeyAcquired       // the key arrived and POST /job/add was sent
    | Polling           // a /job/add reply or a "waiting"/"processing" status reply scheduled a poll
    | Fetching          // a "processed" status reply sent POST /job/<key>/get
    | Done(text: string)
    | Failed

  /** The body of POST /job/add. */
  datatype JobRequest = JobRequest(mkey: string, ukey: string, text: string, model: string)

  /** The four requests the flow sends, with the host and key they carry. */
  datatype Request =
    | KeyGet(host: string, mkey: string)
    | JobAdd(host: string, job: JobRequest)
    | StatusGet(host: string, key: string)
    | ResultGet(host: string, key: string, mkey: string)

  datatype Action =
    | Send(request: Request)
    | SchedulePoll            // setTimeout(get_translation_status, 100)
    | ShowResult(text: string) // the alert of the translated text
    | ShowError               // the call of throw_error()
    | Alert(text: string)     // any other alert

  /** The state a callback moves to (None: it leaves the state alone) and its actions in order. */
  datatype Transition = Transition(next: Option<JobState>, effects: seq<Action>)

  /**
   * Success callback of POST /key/get: exactly one request goes out, the job
   * submission under the key just received, with the page text, the selected
   * model and the shared secret, to the selected host; no poll, no error.
   */
  function OnKeySuccess(cfg: ServiceConfig, ukey: string, text: string): (t: Transition)
    ensures t.next == Some(KeyAcquired)
    ensures |t.effects| == 1 && t.effects[0].Send? && t.effects[0].request.JobAdd?
    ensures t.effects[0].request.host == cfg.host
    ensures t.effects[0].request.job == JobRequest(cfg.masterKey, ukey, text, cfg.modelSend)
    ensures AllKeyedBy(t.effects, ukey) && SchedulePoll !in t.effects && ShowError !in t.effects
  {
    Transition(Some(KeyAcquired), [Send(JobAdd(cfg.host, JobRequest(cfg.masterKey, ukey, text, cfg.modelSend)))])
  }

  /**
   * Error callback of POST /key/get: the alerts "some error" and then the
   * thrown error; no request is sent, no poll is scheduled and `throw_error`
   * is not called, so the flow goes no further.
   */
  function OnKeyError(errorThrown: string): (t: Transition)
    ensures t.next == Some(Failed)
    ensures |t.effects| == 2 && t.effects[0] == Alert("some error") && t.effects[1] == Alert(errorThrown)
    ensures forall i :: 0 <= i < |t.effects| ==> !t.effects[i].Send?
    ensures SchedulePoll !in t.effects && ShowError !in t.effects
  {
    Transition(Some(Failed), [Alert("some error"), Alert(errorThrown)])
  }

  /** Success callback of POST /job/add: an "error" status fails, anything else schedules the first poll. */
  function OnJobAddReply(status: string): (t: Transition)
    ensures status == "error" ==> t == Transition(Some(Failed), [ShowError])
    ensures status != "error" ==> t == Transition(Some(Polling), [SchedulePoll])
  {
    if status == "error" then Transition(Some(Failed), [ShowError])
    else Transition(Some(Polling), [SchedulePoll])
  }

  predicate KeepsPolling(message: string) {
    message == "processing" || message == "waiting"
  }

  /**
   * Success callback of GET /job/<key>/status. Past the "error" test the
   * callback runs four independent `if`s on `message`; the effects are their
   * contributions concatenated in source order. The fetch it starts uses the
   * key current when the reply is handled.
   */
  function OnStatusReply(cfg: ServiceConfig, key: string, status: string, message: string): (t: Transition)
    ensures status == "error" ==> t == Transition(Some(Failed), [ShowError])
    ensures status != "error" && KeepsPolling(message) ==> t == Transition(Some(Polling), [SchedulePoll])
    ensures status != "error" && message == "processed" ==>
              t == Transition(Some(Fetching), [Send(ResultGet(cfg.host, key, cfg.masterKey))])
    ensures status != "error" && message == "failed" ==> t == Transition(Some(Failed), [ShowError])
    ensures status != "error" && !KeepsPolling(message) && message != "processed" && message != "failed" ==>
              t == Transition(None, [])
    ensures SchedulePoll in t.effects <==> status != "error" && KeepsPolling(message)
  {
    if status == "error" then
      Transition(Some(Failed), [ShowError])
    else
      var poll := if KeepsPolling(message) then [SchedulePoll] else [];
      var fetch := if message == "processed" then [Send(ResultGet(cfg.host, key, cfg.masterKey))] else [];
      var fail := if message == "failed" then [ShowError] else [];
      var next :=
        if KeepsPolling(message) then Some(Polling)
        else if message == "processed" then Some(Fetching)
        else if message == "failed" then Some(Failed)
        else None;
      Transition(next, poll + fetch + fail)
  }

  /** Success callback of POST /job/<key>/get, dispatched on the numeric `status`. */
  function OnResultReply(status: int, message: string): (t: Transition)
    ensures status == 4 ==> t == Transition(Some(Failed), [ShowError])
    ensures status == 3 ==> t == Transition(Some(Done(message)), [ShowResult(message)])
    ensures status != 3 && status != 4 ==> t == Transition(None, [])
    ensures SchedulePoll !in t.effects
  {
    if status == 4 then Transition(Some(Failed), [ShowError])
    else if status == 3 then Transition(Some(Done(message)), [ShowResult(message)])
    else Transition(None, [])
  }

  /** The global job key `user_key_job` together with the job state. */
  datatype Client = Client(key: string, job: JobState)

  /** The page starts with an empty job key and no job. */
  const Initial := Client("", Idle)

  /** Everything that can run one of the flow's callbacks. */
  datatype Event =
    | TranslateClicked(text: string)          // the #translate button; `text` is the recognised text
    | KeyReceived(ukey: string, text: string) // /key/get answered; `text` is the page text at that moment
    | KeyRequestFailed(errorThrown: string)   // /key/get failed in transport
    | JobAddReceived(status: string)
    | PollTimerFired                          // a scheduled get_translation_status runs
    | StatusReceived(status: string, message: string)
    | ResultReceived(code: int, text: string)
    | ReplyLost                               // /job/add, status or get failed in transport: no error callback

  datatype Stepped = Stepped(client: Client, effects: seq<Action>)

  function Apply(c: Client, t: Transition): Stepped {
    Stepped(Client(c.key, t.next.GetOr(c.job)), t.effects)
  }

  /** A request that carries a job key carries `key`. */
  predicate KeyedBy(a: Action, key: string) {
    a.Send? ==>
      match a.request
      case KeyGet(_, _) => true
      case JobAdd(_, job) => job.ukey == key
      case StatusGet(_, k) => k == key
      case ResultGet(_, k, _) => k == key
  }

  /** The events after which the code arms a poll timer. */
  predicate CausesPoll(e: Event) {
    match e
    case JobAddReceived(status) => status != "error"
    case StatusReceived(status, message) => status != "error" && KeepsPolling(message)
    case _ => false
  }

  /**
   * One callback. Only a key reply changes the job key; every request that
   * names a job uses the key as it is after the step.
   */
  function Step(cfg: ServiceConfig, c: Client, e: Event): (s: Stepped)
    ensures e.KeyReceived? ==> s.client.key == e.ukey
    ensures !e.KeyReceived? ==> s.client.key == c.key
    ensures forall i :: 0 <= i < |s.effects| ==> KeyedBy(s.effects[i], s.client.key)
  {
    match e
    case TranslateClicked(text) =>
      Stepped(Client(c.key, KeyRequested), [Alert("translate " + text), Send(KeyGet(cfg.host, cfg.masterKey))])
    case KeyReceived(ukey, text) => Apply(Client(ukey, c.job), OnKeySuccess(cfg, ukey, text))
    case KeyRequestFailed(errorThrown) => Apply(c, OnKeyError(errorThrown))
    case JobAddReceived(status) => Apply(c, OnJobAddReply(status))
    case PollTimerFired => Stepped(c, [Send(StatusGet(cfg.host, c.key))])
    case StatusReceived(status, message) => Apply(c, OnStatusReply(cfg, c.key, status, message))
    case ResultReceived(code, text) => Apply(c, OnResultReply(code, text))
    case ReplyLost => Stepped(c, [])
  }

  /** How many polls `effects` schedules. */
  function PollsIn(effects: seq<Action>): nat {
    if effects == [] then 0
    else (if effects[0] == SchedulePoll then 1 else 0) + PollsIn(effects[1..])
  }

  lemma {:induction false} PollsInConcat(a: seq<Action>, b: seq<Action>)
    ensures PollsIn(a + b) == PollsIn(a) + PollsIn(b)
    decreases |a|
  {
    if a == [] {
      assert a + b == b;
    } else {
      assert (a + b)[0] == a[0] && (a + b)[1..] == a[1..] + b;
      PollsInConcat(a[1..], b);
    }
  }

  /** A poll timer is armed exactly once by each poll-causing event and never otherwise. */
  lemma StepArmsPoll(cfg: ServiceConfig, c: Client, e: Event)
    ensures PollsIn(Step(cfg, c, e).effects) == if CausesPoll(e) then 1 else 0
  {
    var effects := Step(cfg, c, e).effects;
    assert SchedulePoll in effects <==> CausesPoll(e);
    assert |effects| <= 2 && (|effects| == 2 ==> effects[0] != SchedulePoll && effects[1] != SchedulePoll);
    if |effects| == 1 {
      assert effects[1..] == [];
    } else if |effects| == 2 {
      assert effects[1..] == [effects[1]] && effects[1..][1..] == [];
      assert PollsIn(effects[1..]) == 0;
    }
  }

  /** The job key after `events`: the ukey of the last key reply among them, or `key` if there is none. */
  function KeyAfter(key: string, events: seq<Event>): string
    decreases |events|
  {
    if events == [] then key
    else KeyAfter(if events[0].KeyReceived? then events[0].ukey else key, events[1..])
  }

  /**
   * The callbacks for `events`, in order; the effects of all of them,
   * concatenated. The global key ends as the last key reply left it.
   */
  function Run(cfg: ServiceConfig, c: Client, events: seq<Event>): (r: Stepped)
    ensures r.client.key == KeyAfter(c.key, events)
    decreases |events|
  {
    if events == [] then Stepped(c, [])
    else
      var first := Step(cfg, c, events[0]);
      var rest := Run(cfg, first.client, events[1..]);
      Stepped(rest.client, first.effects + rest.effects)
  }

  /** How many of `events` arm a poll timer. */
  function PollCauses(events: seq<Event>): nat {
    if events == [] then 0
    else (if CausesPoll(events[0]) then 1 else 0) + PollCauses(events[1..])
  }

  /** Every request in `effects` that names a job names `key`. */
  predicate AllKeyedBy(effects: seq<Action>, key: string) {
    forall i :: 0 <= i < |effects| ==> KeyedBy(effects[i], key)
  }

  lemma AllKeyedByConcat(a: seq<Action>, b: seq<Action>, key: string)
    requires AllKeyedBy(a, key) && AllKeyedBy(b, key)
    ensures AllKeyedBy(a + b, key)
  {
    forall i | 0 <= i < |a + b|
      ensures KeyedBy((a + b)[i], key)
    {
      if i >= |a| {
        assert (a + b)[i] == b[i - |a|];
      }
    }
  }

  /**
   * Without a key reply in between, the job key stays as it is and every
   * status request, result request and job submission uses it.
   */
  lemma {:induction false} RequestsUseCurrentKey(cfg: ServiceConfig, c: Client, events: seq<Event>)
    requires forall i :: 0 <= i < |events| ==> !events[i].KeyReceived?
    ensures Run(cfg, c, events).client.key == c.key
    ensures AllKeyedBy(Run(cfg, c, events).effects, c.key)
    decreases |events|
  {
    if events != [] {
      var first := Step(cfg, c, events[0]);
      RequestsUseCurrentKey(cfg, first.client, events[1..]);
      AllKeyedByConcat(first.effects, Run(cfg, first.client, events[1..]).effects, c.key);
    }
  }

  /**
   * Once /key/get has answered with `ukey`, the job it submits and every
   * later status and result request use `ukey`, until another key reply
   * overwrites it.
   */
  lemma KeyReplyFixesJobKey(cfg: ServiceConfig, c: Client, ukey: string, text: string, later: seq<Event>)
    requires forall i :: 0 <= i < |later| ==> !later[i].KeyReceived?
    ensures Run(cfg, c, [KeyReceived(ukey, text)] + later).client.key == ukey
    ensures AllKeyedBy(Run(cfg, c, [KeyReceived(ukey, text)] + later).effects, ukey)
  {
    var events := [KeyReceived(ukey, text)] + later;
    assert events[0] == KeyReceived(ukey, text) && events[1..] == later;
    var first := Step(cfg, c, events[0]);
    RequestsUseCurrentKey(cfg, first.client, later);
    AllKeyedByConcat(first.effects, Run(cfg, first.client, later).effects, ukey);
  }

  /**
   * Over any run, the number of polls scheduled equals the number of
   * non-error /job/add replies plus the number of non-error "waiting" or
   * "processing" status replies: every other reply schedules no poll.
   */
  lemma {:induction false} PollsMatchCauses(cfg: ServiceConfig, c: Client, events: seq<Event>)
    ensures PollsIn(Run(cfg, c, events).effects) == PollCauses(events)
    decreases |events|
  {
    if events != [] {
      var first := Step(cfg, c, events[0]);
      StepArmsPoll(cfg, c, events[0]);
      PollsMatchCauses(cfg, first.client, events[1..]);
      PollsInConcat(first.effects, Run(cfg, first.client, events[1..]).effects);
    }
  }

  /** Running `e` and then `rest` is stepping through `e` and running `rest` from there. */
  lemma RunCons(cfg: ServiceConfig, c: Client, e: Event, rest: seq<Event>, after: Stepped, final: Stepped)
    requires Step(cfg, c, e) == after
    requires Run(cfg, after.client, rest) == final
    ensures Run(cfg, c, [e] + rest) == Stepped(final.client, after.effects + final.effects)
  {
    assert ([e] + rest)[0] == e && ([e] + rest)[1..] == rest;
  }

  /** From a scheduled poll: waiting, processing, processed, then result 3 shows the text. */
  lemma PollingToDone(cfg: ServiceConfig, k: string, pollStatus: string, text: string)
    requires pollStatus != "error"
    ensures Run(cfg, Client(k, Polling),
              [PollTimerFired, StatusReceived(pollStatus, "waiting"),
               PollTimerFired, StatusReceived(pollStatus, "processing"),
               PollTimerFired, StatusReceived(pollStatus, "processed"),
               ResultReceived(3, text)])
         == Stepped(Client(k, Done(text)),
                    [Send(StatusGet(cfg.host, k)), SchedulePoll,
                     Send(StatusGet(cfg.host, k)), SchedulePoll,
                     Send(StatusGet(cfg.host, k)), Send(ResultGet(cfg.host, k, cfg.masterKey)),
                     ShowResult(text)])
  {
    var polling := Client(k, Polling);
    var done := Client(k, Done(text));
    var status := Send(StatusGet(cfg.host, k));
    var e7 := [ResultReceived(3, text)];
    var t7 := [ShowResult(text)];
    RunCons(cfg, Client(k, Fetching), e7[0], [], Stepped(done, t7), Stepped(done, []));
    var e6 := [StatusReceived(pollStatus, "processed")] + e7;
    var t6 := [Send(ResultGet(cfg.host, k, cfg.masterKey))];
    RunCons(cfg, polling, e6[0], e7, Stepped(Client(k, Fetching), t6), Stepped(done, t7));
    var e5 := [PollTimerFired] + e6;
    RunCons(cfg, polling, e5[0], e6, Stepped(polling, [status]), Stepped(done, t6 + t7));
    var e4 := [StatusReceived(pollStatus, "processing")] + e5;
    RunCons(cfg, polling, e4[0], e5, Stepped(polling, [SchedulePoll]), Stepped(done, [status] + (t6 + t7)));
    var e3 := [PollTimerFired] + e4;
    var t4 := [SchedulePoll] + ([status] + (t6 + t7));
    RunCons(cfg, polling, e3[0], e4, Stepped(polling, [status]), Stepped(done, t4));
    var e2 := [StatusReceived(pollStatus, "waiting")] + e3;
    RunCons(cfg, polling, e2[0], e3, Stepped(polling, [SchedulePoll]), Stepped(done, [status] + t4));
    var e1 := [PollTimerFired] + e2;
    RunCons(cfg, polling, e1[0], e2, Stepped(polling, [status]), Stepped(done, [SchedulePoll] + ([status] + t4)));
    assert e1 == [PollTimerFired, StatusReceived(pollStatus, "waiting"),
                  PollTimerFired, StatusReceived(pollStatus, "processing"),
                  PollTimerFired, StatusReceived(pollStatus, "processed"),
                  ResultReceived(3, text)];
    assert [status] + ([SchedulePoll] + ([status] + t4))
        == [status, SchedulePoll, status, SchedulePoll, status, Send(ResultGet(cfg.host, k, cfg.masterKey)), ShowResult(text)];
  }

  /**
   * From the start, a click, a key reply and a non-error /job/add reply
   * alert the text, request a key, submit the job under the returned key and
   * schedule the first poll; whatever follows runs from Polling with that key.
   */
  lemma SubmitToPolling(cfg: ServiceConfig, ukey: string, text: string, addStatus: string,
                        rest: seq<Event>, final: Stepped)
    requires addStatus != "error"
    requires Run(cfg, Client(ukey, Polling), rest) == final
    ensures Run(cfg, Initial, [TranslateClicked(text), KeyReceived(ukey, text), JobAddReceived(addStatus)] + rest)
         == Stepped(final.client,
                    [Alert("translate " + text), Send(KeyGet(cfg.host, cfg.masterKey)),
                     Send(JobAdd(cfg.host, JobRequest(cfg.masterKey, ukey, text, cfg.modelSend))),
                     SchedulePoll] + final.effects)
  {
    var e2 := [JobAddReceived(addStatus)] + rest;
    RunCons(cfg, Client(ukey, KeyAcquired), e2[0], rest, Stepped(Client(ukey, Polling), [SchedulePoll]), final);
    var e1 := [KeyReceived(ukey, text)] + e2;
    var t1 := [Send(JobAdd(cfg.host, JobRequest(cfg.masterKey, ukey, text, cfg.modelSend)))];
    RunCons(cfg, Client("", KeyRequested), e1[0], e2, Stepped(Client(ukey, KeyAcquired), t1),
            Stepped(final.client, [SchedulePoll] + final.effects));
    var t0 := [Alert("translate " + text), Send(KeyGet(cfg.host, cfg.masterKey))];
    RunCons(cfg, Initial, TranslateClicked(text), e1, Stepped(Client("", KeyRequested), t0),
            Stepped(final.client, t1 + ([SchedulePoll] + final.effects)));
    assert [TranslateClicked(text)] + e1
        == [TranslateClicked(text), KeyReceived(ukey, text), JobAddReceived(addStatus)] + rest;
    assert t0 + (t1 + ([SchedulePoll] + final.effects))
        == [Alert("translate " + text), Send(KeyGet(cfg.host, cfg.masterKey)),
            Send(JobAdd(cfg.host, JobRequest(cfg.masterKey, ukey, text, cfg.modelSend))),
            SchedulePoll] + final.effects;
  }

  /**
   * The successful run: translate "kaixo", receive key "fD6JZAFQvU", the job
   * is accepted, the status goes waiting, processing, processed, and the
   * result reply (status 3, "hello") is shown; the job ends Done("hello").
   */
  lemma SuccessfulJob(cfg: ServiceConfig, addStatus: string, pollStatus: string)
    requires addStatus != "error" && pollStatus != "error"
    ensures Run(cfg, Initial,
              [TranslateClicked("kaixo"), KeyReceived("fD6JZAFQvU", "kaixo"), JobAddReceived(addStatus),
               PollTimerFired, StatusReceived(pollStatus, "waiting"),
               PollTimerFired, StatusReceived(pollStatus, "processing"),
               PollTimerFired, StatusReceived(pollStatus, "processed"),
               ResultReceived(3, "hello")])
         == Stepped(Client("fD6JZAFQvU", Done("hello")),
                    [Alert("translate kaixo"), Send(KeyGet(cfg.host, cfg.masterKey)),
                     Send(JobAdd(cfg.host, JobRequest(cfg.masterKey, "fD6JZAFQvU", "kaixo", cfg.modelSend))),
                     SchedulePoll,
                     Send(StatusGet(cfg.host, "fD6JZAFQvU")), SchedulePoll,
                     Send(StatusGet(cfg.host, "fD6JZAFQvU")), SchedulePoll,
                     Send(StatusGet(cfg.host, "fD6JZAFQvU")), Send(ResultGet(cfg.host, "fD6JZAFQvU", cfg.masterKey)),
                     ShowResult("hello")])
  {
    var k := "fD6JZAFQvU";
    var polls := [PollTimerFired, StatusReceived(pollStatus, "waiting"),
                  PollTimerFired, StatusReceived(pollStatus, "processing"),
                  PollTimerFired, StatusReceived(pollStatus, "processed"),
                  ResultReceived(3, "hello")];
    PollingToDone(cfg, k, pollStatus, "hello");
    SubmitToPolling(cfg, k, "kaixo", addStatus, polls, Run(cfg, Client(k, Polling), polls));
    assert "translate " + "kaixo" == "translate kaixo";
    assert [TranslateClicked("kaixo"), KeyReceived(k, "kaixo"), JobAddReceived(addStatus)] + polls
        == [TranslateClicked("kaixo"), KeyReceived(k, "kaixo"), JobAddReceived(addStatus),
            PollTimerFired, StatusReceived(pollStatus, "waiting"),
            PollTimerFired, StatusReceived(pollStatus, "processing"),
            PollTimerFired, StatusReceived(pollStatus, "processed"),
            ResultReceived(3, "hello")];
  }

  /** A "failed" status (whatever the status field) ends the job in Failed and arms no further poll. */
  lemma FailedJob(cfg: ServiceConfig, c: Client, status: string)
    ensures Step(cfg, c, StatusReceived(status, "failed")) == Stepped(Client(c.key, Failed), [ShowError])
  {
  }
}

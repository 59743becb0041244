/**
 * The page's translation state as the code keeps it: the global
 * `user_key_job`, overwritten by every key reply, and the job state. Each
 * method is one callback; it updates the fields in place and returns the
 * actions the callback performs. Every method is proved equal to one step of
 * `TranslationJob.Step`, so the trace lemmas proved there hold of any
 * sequence of calls.
 */
module TranslationClient {
  import opened Config
  import opened TranslationJob

  class JobClient {
    /** The configuration each request function computes from its hard-coded direction. */
    const cfg: ServiceConfig
    /** The global `user_key_job`. */
    var userKeyJob: string
    var job: JobState

    function State(): TranslationJob.Client
      reads this
    {
      TranslationJob.Client(userKeyJob, job)
    }

    constructor (sharedSecret: string)
      ensures cfg == SelectConfig(ActiveModel, sharedSecret)
      ensures State() == Initial
    {
      cfg := SelectConfig(ActiveModel, sharedSecret);
      userKeyJob := "";
      job := Idle;
    }

    /** The #translate button: alert the text, then request a key. */
    method Translate(text: string) returns (effects: seq<Action>)
      modifies this
      ensures Stepped(State(), effects) == Step(cfg, old(State()), TranslateClicked(text))
    {
      effects := [Alert("translate " + text), Send(KeyGet(cfg.host, cfg.masterKey))];
      job := KeyRequested;
    }

    /** Success of /key/get: overwrite the global key and submit the job with it. */
    method OnKeyReceived(ukey: string, text: string) returns (effects: seq<Action>)
      modifies this
      ensures userKeyJob == ukey
      ensures Stepped(State(), effects) == Step(cfg, old(State()), KeyReceived(ukey, text))
    {
      userKeyJob := ukey;
      var send := JobRequest(cfg.masterKey, userKeyJob, text, cfg.modelSend);
      effects := [Send(JobAdd(cfg.host, send))];
      job := KeyAcquired;
    }

    /** Transport failure of /key/get. */
    method OnKeyRequestFailed(errorThrown: string) returns (effects: seq<Action>)
      modifies this
      ensures Stepped(State(), effects) == Step(cfg, old(State()), KeyRequestFailed(errorThrown))
    {
      effects := [Alert("some error"), Alert(errorThrown)];
      job := Failed;
    }

    /** Success of /job/add. */
    method OnJobAdded(status: string) returns (effects: seq<Action>)
      modifies this
      ensures userKeyJob == old(userKeyJob)
      ensures Stepped(State(), effects) == Step(cfg, old(State()), JobAddReceived(status))
    {
      var t := OnJobAddReply(status);
      effects := t.effects;
      job := t.next.GetOr(job);
    }

    /** A scheduled `get_translation_status` runs: it asks for the status of the job the global key names now. */
    method PollStatus() returns (effects: seq<Action>)
      ensures effects == [Send(StatusGet(cfg.host, userKeyJob))]
      ensures Stepped(State(), effects) == Step(cfg, State(), PollTimerFired)
    {
      effects := [Send(StatusGet(cfg.host, userKeyJob))];
    }

    /** Success of GET /job/<key>/status. */
    method OnStatus(status: string, message: string) returns (effects: seq<Action>)
      modifies this
      ensures userKeyJob == old(userKeyJob)
      ensures Stepped(State(), effects) == Step(cfg, old(State()), StatusReceived(status, message))
    {
      var t := OnStatusReply(cfg, userKeyJob, status, message);
      effects := t.effects;
      job := t.next.GetOr(job);
    }

    /** Success of POST /job/<key>/get. */
    method OnResult(code: int, text: string) returns (effects: seq<Action>)
      modifies this
      ensures userKeyJob == old(userKeyJob)
      ensures Stepped(State(), effects) == Step(cfg, old(State()), ResultReceived(code, text))
    {
      var t := OnResultReply(code, text);
      effects := t.effects;
      job := t.next.GetOr(job);
    }
  }
}

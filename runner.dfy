/**
 * The session controller of village.py: `TaskRunner` sends the task prompt,
 * then keeps sending empty follow-up prompts (saving the history before
 * each) until a completion callback marks the task completed.  A send that
 * fails with a transient `ClientError` is retried after a 30 second sleep.
 *
 * The chat provider is an oracle: a script of exchanges, each of which may
 * fire completion callbacks (through the tools the model calls) and then
 * either raises `ClientError` or returns a response.  The source waits on
 * the provider forever; the model stops when the script runs out and says
 * so (`ScriptExhausted`, `Stalled`), so every finite prefix of an endless
 * run is described.
 */
module Runner {
  import opened Wrappers

  /** `task_success(message)` or `task_failure(message)`, fired by a tool call. */
  datatype Callback = TaskSuccess(message: string) | TaskFailure(message: string)

  /** How one `chat.send_message` call ends. */
  datatype Reply = ClientError | Response(text: Option<string>)

  /** One call into the provider: the callbacks fired while it ran, then its reply. */
  datatype Exchange = Exchange(callbacks: seq<Callback>, reply: Reply)

  /** The side effects of the controller that the outside world can see. */
  datatype Event = Sent(prompt: string) | Slept(seconds: nat) | SavedHistory

  /** `asyncio.sleep(30)` between retries. */
  const RetryDelay: nat := 30

  /** The controller's state as a value: its two fields, the provider's remaining script and the events so far. */
  datatype Session = Session(completed: bool, successful: Option<bool>, script: seq<Exchange>, log: seq<Event>)

  /** What `send_message` returns; `ScriptExhausted` stands for waiting on the provider forever. */
  datatype SendResult = Returned(text: Option<string>) | ScriptExhausted

  /** How `run` ends; `Stalled` stands for waiting on the provider forever. */
  datatype RunResult = Finished | Stalled

  /** `prompt or ""` */
  function PromptText(prompt: Option<string>): string
  {
    match prompt
    case Some(p) => p
    case None => ""
  }

  /** `task_success` / `task_failure`: save the history, then mark the task done. */
  function Fire(s: Session, c: Callback): Session
  {
    s.(log := s.log + [SavedHistory], completed := true, successful := Some(c.TaskSuccess?))
  }

  /** The callbacks of one exchange, in the order the tools fired them. */
  function FireAll(s: Session, cs: seq<Callback>): (r: Session)
    ensures r.script == s.script
    decreases |cs|
  {
    if cs == [] then s else FireAll(Fire(s, cs[0]), cs[1..])
  }

  /** One `chat.send_message(prompt)`: the provider's next exchange. */
  function Call(s: Session, prompt: string): (Session, Reply)
    requires s.script != []
  {
    var x := s.script[0];
    (FireAll(s.(script := s.script[1..], log := s.log + [Sent(prompt)]), x.callbacks), x.reply)
  }

  /** `send_message(prompt)`: retry on `ClientError` until a response, or until the task is completed. */
  function Send(s: Session, prompt: string): (r: (Session, SendResult))
    ensures |r.0.script| <= |s.script| && r.0.script == s.script[|s.script| - |r.0.script|..]
    ensures !s.completed && r.1.Returned? ==> |r.0.script| < |s.script|
    decreases |s.script|
  {
    if s.completed then (s, Returned(None))
    else if s.script == [] then (s, ScriptExhausted)
    else
      var (s1, reply) := Call(s, prompt);
      match reply
      case Response(text) => (s1, Returned(text))
      case ClientError => Send(s1.(log := s1.log + [Slept(RetryDelay)]), prompt)
  }

  /** The loop of `run`: save the history, send an empty prompt, until completed. */
  function RunLoop(s: Session): (r: (Session, RunResult))
    ensures |r.0.script| <= |s.script|
    ensures r.0.completed || r.0.script == []
    decreases |s.script|
  {
    if s.completed then (s, Finished)
    else
      var (s1, res) := Send(s.(log := s.log + [SavedHistory]), "");
      SendEnds(s.(log := s.log + [SavedHistory]), "");
      if res.ScriptExhausted? then (s1, Stalled) else RunLoop(s1)
  }

  /** `run()`: send the task prompt, then run the follow-up loop. */
  function RunSession(s: Session, prompt: string): (r: (Session, RunResult))
    ensures |r.0.script| <= |s.script|
    ensures r.0.completed || r.0.script == []
  {
    SendEnds(s, prompt);
    var (s1, res) := Send(s, prompt);
    if res.ScriptExhausted? then (s1, Stalled) else RunLoop(s1)
  }

  class TaskRunner {
    /** `task.prompt` */
    const prompt: string
    var completed: bool
    var successful: Option<bool>
    /** What the chat provider will do on each remaining call. */
    var script: seq<Exchange>
    /** Sends, sleeps and history saves, in order. */
    var log: seq<Event>

    function State(): Session
      reads this
    {
      Session(completed, successful, script, log)
    }

    /** `TaskRunner(task, model)`: a runner starts neither completed nor decided. */
    constructor (taskPrompt: string, provider: seq<Exchange>)
      ensures prompt == taskPrompt
      ensures State() == Session(false, None, provider, [])
    {
      prompt := taskPrompt;
      script := provider;
      log := [];
      completed := false;
      successful := None;
    }

    /** `save_history()`, as an event. */
    method SaveHistory()
      modifies this
      ensures State() == old(State()).(log := old(log) + [SavedHistory])
    {
      log := log + [SavedHistory];
    }

    method TaskSuccess(message: string)
      modifies this
      ensures State() == Fire(old(State()), Callback.TaskSuccess(message))
    {
      SaveHistory();
      completed := true;
      successful := Some(true);
    }

    method TaskFailure(message: string)
      modifies this
      ensures State() == Fire(old(State()), Callback.TaskFailure(message))
    {
      SaveHistory();
      completed := true;
      successful := Some(false);
    }

    /** The provider's next exchange: the prompt goes out, the tools fire their callbacks, the reply comes back. */
    method CallProvider(text: string) returns (reply: Reply)
      requires script != []
      modifies this
      ensures (State(), reply) == Call(old(State()), text)
    {
      var x := script[0];
      script := script[1..];
      log := log + [Sent(text)];
      var i := 0;
      while i < |x.callbacks|
        invariant 0 <= i <= |x.callbacks|
        invariant FireAll(State(), x.callbacks[i..]) == Call(old(State()), text).0
      {
        assert x.callbacks[i..][1..] == x.callbacks[i + 1..];
        match x.callbacks[i] {
          case TaskSuccess(m) => TaskSuccess(m);
          case TaskFailure(m) => TaskFailure(m);
        }
        i := i + 1;
      }
      reply := x.reply;
    }

    method SendMessage(p: Option<string>) returns (r: SendResult)
      modifies this
      ensures (State(), r) == Send(old(State()), PromptText(p))
    {
      var text := PromptText(p);
      while !completed
        invariant Send(State(), text) == Send(old(State()), text)
        decreases |script|
      {
        if script == [] {
          return ScriptExhausted;
        }
        var reply := CallProvider(text);
        match reply {
          case Response(t) =>
            return Returned(t);
          case ClientError =>
            log := log + [Slept(RetryDelay)];
        }
      }
      return Returned(None);
    }

    method Run() returns (r: RunResult)
      modifies this
      ensures (State(), r) == RunSession(old(State()), prompt)
    {
      var res := SendMessage(Some(prompt));
      if res.ScriptExhausted? {
        return Stalled;
      }
      while !completed
        invariant RunLoop(State()) == RunSession(old(State()), prompt)
        decreases |script|
      {
        SaveHistory();
        res := SendMessage(None);
        if res.ScriptExhausted? {
          return Stalled;
        }
      }
      return Finished;
    }
  }

  // ---------------------------------------------------------------------
  // What the session promises

  /** The callbacks of a run of exchanges, in firing order. */
  function Callbacks(xs: seq<Exchange>): seq<Callback>
  {
    if xs == [] then [] else xs[0].callbacks + Callbacks(xs[1..])
  }

  /** `successful` after the callbacks `cs`: the kind of the last one; unchanged if there is none. */
  function LastOutcome(init: Option<bool>, cs: seq<Callback>): Option<bool>
  {
    if cs == [] then init else Some(cs[|cs| - 1].TaskSuccess?)
  }

  /** `n` history saves. */
  function Saves(n: nat): seq<Event>
  {
    seq(n, _ => SavedHistory)
  }

  /**
   * From `s` to `s'` the provider consumed a prefix of the script, and the
   * two fields follow the callbacks of that prefix: `completed` became (or
   * stayed) true exactly if it was already true or some callback fired, and
   * `successful` is the kind of the last callback fired (last one wins).
   */
  predicate FollowsCallbacks(s: Session, s': Session)
  {
    && |s'.script| <= |s.script|
    && s'.script == s.script[|s.script| - |s'.script|..]
    && var used := s.script[..|s.script| - |s'.script|];
    && s'.completed == (s.completed || Callbacks(used) != [])
    && s'.successful == LastOutcome(s.successful, Callbacks(used))
  }

  /** Firing callbacks saves the history once per callback and leaves the last one's verdict. */
  lemma {:induction false} FireAllEffect(s: Session, cs: seq<Callback>)
    ensures FireAll(s, cs) == s.(completed := s.completed || cs != [],
                                 successful := LastOutcome(s.successful, cs),
                                 log := s.log + Saves(|cs|))
    decreases |cs|
  {
    if cs == [] {
      assert s.log + Saves(0) == s.log;
    } else {
      FireAllEffect(Fire(s, cs[0]), cs[1..]);
      assert s.log + [SavedHistory] + Saves(|cs| - 1) == s.log + Saves(|cs|);
      if cs[1..] != [] {
        assert cs[1..][|cs[1..]| - 1] == cs[|cs| - 1];
      }
    }
  }

  lemma {:induction false} CallbacksAppend(xs: seq<Exchange>, ys: seq<Exchange>)
    ensures Callbacks(xs + ys) == Callbacks(xs) + Callbacks(ys)
  {
    if xs == [] {
      assert xs + ys == ys;
    } else {
      var zs := xs + ys;
      assert zs[0] == xs[0];
      assert zs[1..] == xs[1..] + ys;
      CallbacksAppend(xs[1..], ys);
      calc {
        Callbacks(zs);
        zs[0].callbacks + Callbacks(zs[1..]);
        xs[0].callbacks + (Callbacks(xs[1..]) + Callbacks(ys));
        Callbacks(xs) + Callbacks(ys);
      }
    }
  }

  lemma LastOutcomeAppend(init: Option<bool>, c1: seq<Callback>, c2: seq<Callback>)
    ensures LastOutcome(LastOutcome(init, c1), c2) == LastOutcome(init, c1 + c2)
  {
    if c2 != [] {
      assert (c1 + c2)[|c1 + c2| - 1] == c2[|c2| - 1];
    } else {
      assert c1 + c2 == c1;
    }
  }

  /** Following the callbacks composes along a run. */
  lemma FollowsCallbacksTrans(s1: Session, s2: Session, s3: Session)
    requires FollowsCallbacks(s1, s2) && FollowsCallbacks(s2, s3)
    ensures FollowsCallbacks(s1, s3)
  {
    var n1, n2, n3 := |s1.script|, |s2.script|, |s3.script|;
    var a, b := n1 - n2, n2 - n3;
    var u1, u2 := s1.script[..a], s2.script[..b];
    assert s2.script == s1.script[a..];
    assert s3.script == s1.script[a + b..];
    assert s1.script[..a + b] == u1 + u2;
    CallbacksAppend(u1, u2);
    LastOutcomeAppend(s1.successful, Callbacks(u1), Callbacks(u2));
  }

  /** One provider call consumes one exchange and follows its callbacks. */
  lemma CallFollowsCallbacks(s: Session, prompt: string)
    requires s.script != []
    ensures FollowsCallbacks(s, Call(s, prompt).0)
  {
    var x := s.script[0];
    var s0 := s.(script := s.script[1..], log := s.log + [Sent(prompt)]);
    FireAllEffect(s0, x.callbacks);
    assert Callbacks([x]) == x.callbacks + Callbacks([]);
    assert s.script[..1] == [x];
  }

  /**
   * `send_message` moves the session according to the callbacks fired
   * during the exchanges it used.
   */
  lemma {:induction false} SendFollowsCallbacks(s: Session, prompt: string, s': Session)
    requires s' == Send(s, prompt).0
    ensures FollowsCallbacks(s, s')
    decreases |s.script|
  {
    if s.completed || s.script == [] {
      assert s.script[..0] == [];
    } else {
      var (s1, reply) := Call(s, prompt);
      CallFollowsCallbacks(s, prompt);
      if reply.ClientError? {
        var s2 := s1.(log := s1.log + [Slept(RetryDelay)]);
        assert s' == Send(s2, prompt).0;
        assert FollowsCallbacks(s, s2);
        SendFollowsCallbacks(s2, prompt, s');
        FollowsCallbacksTrans(s, s2, s');
      }
    }
  }

  /** The follow-up loop of `run` moves the session according to the callbacks fired. */
  lemma {:induction false} RunLoopFollowsCallbacks(s: Session)
    ensures FollowsCallbacks(s, RunLoop(s).0)
    decreases |s.script|
  {
    if s.completed {
      assert s.script[..0] == [];
    } else {
      var s0 := s.(log := s.log + [SavedHistory]);
      var (s1, res) := Send(s0, "");
      SendFollowsCallbacks(s0, "", s1);
      if !res.ScriptExhausted? {
        var s2 := RunLoop(s1).0;
        assert RunLoop(s).0 == s2;
        RunLoopFollowsCallbacks(s1);
        FollowsCallbacksTrans(s, s1, s2);
      }
    }
  }

  /**
   * A whole session: `completed` is true at the end exactly when some
   * callback fired (it is never reset), and `successful` is the kind of the
   * last callback (`None` if none fired): a second callback overrides the
   * first.
   */
  lemma SessionFollowsCallbacks(s: Session, prompt: string)
    ensures FollowsCallbacks(s, RunSession(s, prompt).0)
  {
    var (s1, res) := Send(s, prompt);
    SendFollowsCallbacks(s, prompt, s1);
    if !res.ScriptExhausted? {
      RunLoopFollowsCallbacks(s1);
      FollowsCallbacksTrans(s, s1, RunLoop(s1).0);
    }
  }

  /** `run` returns only once the task is completed; it stalls only if the provider never answers. */
  lemma {:induction false} RunLoopEnds(s: Session)
    ensures RunLoop(s).1 == Finished <==> RunLoop(s).0.completed
    ensures RunLoop(s).1 == Stalled ==> RunLoop(s).0.script == []
    decreases |s.script|
  {
    if !s.completed {
      var (s1, res) := Send(s.(log := s.log + [SavedHistory]), "");
      SendEnds(s.(log := s.log + [SavedHistory]), "");
      if !res.ScriptExhausted? {
        RunLoopEnds(s1);
      }
    }
  }

  lemma {:induction false} SendEnds(s: Session, prompt: string)
    ensures Send(s, prompt).1 == ScriptExhausted ==> !Send(s, prompt).0.completed && Send(s, prompt).0.script == []
    decreases |s.script|
  {
    if !s.completed && s.script != [] {
      var (s1, reply) := Call(s, prompt);
      if reply.ClientError? {
        SendEnds(s1.(log := s1.log + [Slept(RetryDelay)]), prompt);
      }
    }
  }

  lemma SessionEnds(s: Session, prompt: string)
    ensures RunSession(s, prompt).1 == Finished <==> RunSession(s, prompt).0.completed
    ensures RunSession(s, prompt).1 == Stalled ==> RunSession(s, prompt).0.script == []
  {
    SendEnds(s, prompt);
    var (s1, res) := Send(s, prompt);
    if !res.ScriptExhausted? {
      RunLoopEnds(s1);
    }
  }

  /** `send_message` on a completed runner sends nothing and returns `None`. */
  lemma SendWhenCompleted(s: Session, prompt: string)
    requires s.completed
    ensures Send(s, prompt) == (s, Returned(None))
  {
  }

  /** `k` failed attempts of `prompt`, each followed by the retry sleep. */
  function RetryEvents(prompt: string, k: nat): seq<Event>
  {
    if k == 0 then [] else [Sent(prompt), Slept(RetryDelay)] + RetryEvents(prompt, k - 1)
  }

  /**
   * Retry: when the provider raises `ClientError` `k` times (firing no
   * callback) and then responds, `send_message` sends the same prompt
   * `k + 1` times, sleeps 30 seconds after each failure, and returns the
   * response's text; the callbacks of the answering exchange still fire.
   */
  lemma {:induction false} SendRetries(s: Session, prompt: string, k: nat)
    requires !s.completed && k < |s.script|
    requires forall i :: 0 <= i < k ==> s.script[i] == Exchange([], ClientError)
    requires s.script[k].reply.Response?
    ensures Send(s, prompt) == (FireAll(s.(script := s.script[k + 1..],
                                           log := s.log + RetryEvents(prompt, k) + [Sent(prompt)]),
                                        s.script[k].callbacks),
                                Returned(s.script[k].reply.text))
    decreases k
  {
    if k > 0 {
      var s1 := s.(script := s.script[1..], log := s.log + [Sent(prompt)]);
      assert s.script[0] == Exchange([], ClientError);
      assert Call(s, prompt) == (s1, ClientError);
      var s2 := s.(script := s.script[1..], log := s.log + [Sent(prompt), Slept(RetryDelay)]);
      assert s1.(log := s1.log + [Slept(RetryDelay)]) == s2;
      assert Send(s, prompt) == Send(s2, prompt);
      forall i | 0 <= i < k - 1 ensures s2.script[i] == Exchange([], ClientError) {
        assert s2.script[i] == s.script[i + 1];
      }
      SendRetries(s2, prompt, k - 1);
      assert s.script[1..][k - 1 + 1..] == s.script[k + 1..];
      assert s2.log + RetryEvents(prompt, k - 1) == s.log + RetryEvents(prompt, k);
    } else {
      assert s.log + RetryEvents(prompt, 0) + [Sent(prompt)] == s.log + [Sent(prompt)];
      assert Send(s, prompt) == (Call(s, prompt).0, Returned(s.script[0].reply.text));
    }
  }

  /** Two transient errors, then an answer: three attempts, two sleeps. */
  lemma TwoErrorsThenAnswer(prompt: string, answer: string, rest: seq<Exchange>, log: seq<Event>)
    ensures var s := Session(false, None,
                             [Exchange([], ClientError), Exchange([], ClientError), Exchange([], Response(Some(answer)))] + rest,
                             log);
      Send(s, prompt) == (Session(false, None, rest,
                                  log + [Sent(prompt), Slept(30), Sent(prompt), Slept(30), Sent(prompt)]),
                          Returned(Some(answer)))
  {
    var s := Session(false, None,
                     [Exchange([], ClientError), Exchange([], ClientError), Exchange([], Response(Some(answer)))] + rest,
                     log);
    assert s.script[0] == s.script[1] == Exchange([], ClientError);
    SendRetries(s, prompt, 2);
    assert s.script[3..] == rest;
    assert RetryEvents(prompt, 0) == [];
    assert RetryEvents(prompt, 1) == [Sent(prompt), Slept(30)];
    assert RetryEvents(prompt, 2) == [Sent(prompt), Slept(30), Sent(prompt), Slept(30)];
    var t := s.(script := rest, log := log + RetryEvents(prompt, 2) + [Sent(prompt)]);
    assert FireAll(t, s.script[2].callbacks) == t;
    assert t.log == log + [Sent(prompt), Slept(30), Sent(prompt), Slept(30), Sent(prompt)];
  }

  // ---------------------------------------------------------------------
  // Pacing of the sends

  /** Within one `send_message`: every send is of `prompt`, and every send but the first follows a retry sleep. */
  predicate SendsPaced(ev: seq<Event>, prompt: string)
  {
    forall i :: 0 <= i < |ev| && ev[i].Sent? ==> ev[i].prompt == prompt && (i == 0 || ev[i - 1] == Slept(RetryDelay))
  }

  /**
   * One pass of the follow-up loop: a history save, then one paced
   * `send_message("")` whose first event is the send itself (or nothing,
   * when the provider has no exchange left).
   */
  predicate Round(ev: seq<Event>)
  {
    |ev| >= 1 && ev[0] == SavedHistory && SendsPaced(ev[1..], "")
    && (|ev| > 1 ==> ev[1] == Sent(""))
  }

  /** The events of the follow-up loop split into rounds, one after the other. */
  predicate Rounds(ev: seq<Event>)
    decreases |ev|
  {
    ev == [] || exists k :: 1 <= k <= |ev| && Round(ev[..k]) && Rounds(ev[k..])
  }

  /**
   * Follow-up rounds start with a history save, and every send in them is
   * of the empty prompt and comes right after a history save or a retry
   * sleep.
   */
  lemma {:induction false} RoundsPaced(ev: seq<Event>)
    requires Rounds(ev)
    ensures ev != [] ==> ev[0] == SavedHistory
    ensures forall i :: 0 <= i < |ev| && ev[i].Sent? ==>
      ev[i].prompt == "" && 0 < i && (ev[i - 1] == SavedHistory || ev[i - 1] == Slept(RetryDelay))
    decreases |ev|
  {
    if ev != [] {
      var k :| 1 <= k <= |ev| && Round(ev[..k]) && Rounds(ev[k..]);
      var r := ev[..k];
      var rest := ev[k..];
      RoundsPaced(rest);
      forall i | 0 <= i < |ev| && ev[i].Sent?
        ensures ev[i].prompt == "" && 0 < i && (ev[i - 1] == SavedHistory || ev[i - 1] == Slept(RetryDelay))
      {
        if i < k {
          assert ev[i] == r[i] && r[i] == r[1..][i - 1];
          if i > 1 {
            assert ev[i - 1] == r[1..][i - 2];
          }
        } else {
          assert ev[i] == rest[i - k];
          assert i > k by { assert rest[0] == SavedHistory; }
          assert ev[i - 1] == rest[i - k - 1];
        }
      }
    }
  }

  /** `log'` extends `log`. */
  predicate Extends(log': seq<Event>, log: seq<Event>)
  {
    |log| <= |log'| && log'[..|log|] == log
  }

  /** A failed attempt followed by a paced retry is paced. */
  lemma RetryPaced(prompt: string, n: nat, rest: seq<Event>)
    requires SendsPaced(rest, prompt) && (rest != [] ==> rest[0] == Sent(prompt))
    ensures SendsPaced([Sent(prompt)] + Saves(n) + [Slept(RetryDelay)] + rest, prompt)
  {
    var head := [Sent(prompt)] + Saves(n) + [Slept(RetryDelay)];
    var ev := head + rest;
    forall i | 0 <= i < |ev| && ev[i].Sent?
      ensures ev[i].prompt == prompt && (i == 0 || ev[i - 1] == Slept(RetryDelay))
    {
      if i >= |head| {
        var j := i - |head|;
        assert ev[i] == rest[j];
        if j > 0 {
          assert ev[i - 1] == rest[j - 1];
        }
      }
    }
  }

  lemma ExtendsSplit(log': seq<Event>, log: seq<Event>)
    requires Extends(log', log)
    ensures log' == log + log'[|log|..]
  {
  }

  /** A paced continuation after a failed attempt and its sleep keeps the whole send paced. */
  lemma RetryStep(log: seq<Event>, prompt: string, n: nat, log': seq<Event>)
    requires var pre := log + ([Sent(prompt)] + Saves(n)) + [Slept(RetryDelay)];
      && Extends(log', pre) && SendsPaced(log'[|pre|..], prompt)
      && (|log'| > |pre| ==> log'[|pre|] == Sent(prompt))
    ensures Extends(log', log) && SendsPaced(log'[|log|..], prompt)
    ensures |log'| > |log| ==> log'[|log|] == Sent(prompt)
  {
    var head := [Sent(prompt)] + Saves(n);
    var pre := log + head + [Slept(RetryDelay)];
    var rest := log'[|pre|..];
    ExtendsSplit(log', pre);
    RetryPaced(prompt, n, rest);
    assert log'[|log|..] == head + [Slept(RetryDelay)] + rest;
  }

  /** An attempt that gets a response is paced. */
  lemma AnswerStep(log: seq<Event>, prompt: string, n: nat, log': seq<Event>)
    requires log' == log + ([Sent(prompt)] + Saves(n))
    ensures Extends(log', log) && SendsPaced(log'[|log|..], prompt)
    ensures |log'| > |log| ==> log'[|log|] == Sent(prompt)
  {
    var head := [Sent(prompt)] + Saves(n);
    assert log'[|log|..] == head;
  }

  lemma {:induction false} SendPaced(s: Session, prompt: string, s': Session)
    requires s' == Send(s, prompt).0
    ensures Extends(s'.log, s.log)
    ensures SendsPaced(s'.log[|s.log|..], prompt)
    ensures |s'.log| > |s.log| ==> s'.log[|s.log|] == Sent(prompt)
    decreases |s.script|
  {
    if s.completed || s.script == [] {
      assert s'.log[|s.log|..] == [];
    } else {
      var x := s.script[0];
      var s0 := s.(script := s.script[1..], log := s.log + [Sent(prompt)]);
      FireAllEffect(s0, x.callbacks);
      var s1 := Call(s, prompt).0;
      var head := [Sent(prompt)] + Saves(|x.callbacks|);
      assert s1.log == s.log + head;
      if x.reply.ClientError? {
        var s2 := s1.(log := s1.log + [Slept(RetryDelay)]);
        assert s' == Send(s2, prompt).0;
        SendPaced(s2, prompt, s');
        RetryStep(s.log, prompt, |x.callbacks|, s'.log);
      } else {
        assert s' == s1;
        AnswerStep(s.log, prompt, |x.callbacks|, s'.log);
      }
    }
  }

  /** One round of the follow-up loop (a save, a paced send) before further rounds. */
  lemma RoundStep(log: seq<Event>, log1: seq<Event>, log2: seq<Event>)
    requires var pre := log + [SavedHistory];
      && Extends(log1, pre) && SendsPaced(log1[|pre|..], "")
      && (|log1| > |pre| ==> log1[|pre|] == Sent(""))
    requires Extends(log2, log1) && Rounds(log2[|log1|..])
    ensures Extends(log2, log) && Rounds(log2[|log|..])
  {
    var pre := log + [SavedHistory];
    var ev := log2[|log|..];
    var k := |log1| - |log|;
    assert ev[..k] == log1[|log|..];
    assert ev[..k][1..] == log1[|pre|..];
    assert Round(ev[..k]);
    assert ev[k..] == log2[|log1|..];
  }

  /**
   * The follow-up loop appends whole rounds to the log: each iteration
   * saves the history and then sends the empty prompt, retrying after a
   * sleep.
   */
  lemma {:induction false} RunLoopPaced(s: Session, s': Session)
    requires s' == RunLoop(s).0
    ensures Extends(s'.log, s.log) && Rounds(s'.log[|s.log|..])
    decreases |s.script|
  {
    if s.completed {
      assert s'.log[|s.log|..] == [];
    } else {
      var s0 := s.(log := s.log + [SavedHistory]);
      var (s1, res) := Send(s0, "");
      SendPaced(s0, "", s1);
      if res.ScriptExhausted? {
        assert s' == s1;
        assert s1.log[|s1.log|..] == [];
        RoundStep(s.log, s1.log, s1.log);
      } else {
        assert s' == RunLoop(s1).0;
        RunLoopPaced(s1, s');
        RoundStep(s.log, s1.log, s'.log);
      }
    }
  }

  /**
   * `run` first sends the task prompt (retrying as needed); after that,
   * the log grows by follow-up rounds, each a history save followed by a
   * paced `send_message("")`.
   */
  lemma SessionPaced(s: Session, prompt: string)
    ensures var s1 := Send(s, prompt).0;
      var log' := RunSession(s, prompt).0.log;
      && Extends(s1.log, s.log) && Extends(log', s1.log)
      && SendsPaced(s1.log[|s.log|..], prompt)
      && Rounds(log'[|s1.log|..])
  {
    var (s1, res) := Send(s, prompt);
    SendPaced(s, prompt, s1);
    if !res.ScriptExhausted? {
      RunLoopPaced(s1, RunLoop(s1).0);
    } else {
      assert RunSession(s, prompt).0.log[|s1.log|..] == [];
    }
  }
}

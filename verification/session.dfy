/** One generator session: the history of the passwords generated so far and
    the password on display, updated by Generate and Clear History. */
module Sessions {
  import opened Alphabet
  import opened Sampler
  import opened Strength

  /** The status-bar outcome of a generation: copied to the clipboard, or
      the "could not generate" message. */
  datatype Status = Copied | NotGenerated

  datatype Session = Session(history: seq<string>, current: string)

  /** The session when the window is built, before the start-up generation:
      empty history, empty display. */
  const Start: Session := Session([], "")

  /** One press of Generate: the controls' state and the random draws. */
  datatype Request = Request(options: Options, draws: seq<nat>)

  /** One draw per character, each an index into the composed alphabet. */
  predicate ValidRequest(r: Request) {
    && |r.draws| == r.options.length
    && ValidDraws(ComposeAlphabet(r.options), r.draws)
  }

  /** What a generation leaves behind. */
  datatype Outcome = Outcome(session: Session, password: string, strength: nat, status: Status)

  /** The password a request produces. */
  function PasswordFor(r: Request): (password: string)
    requires ValidRequest(r)
    ensures |password| == r.options.length
    ensures forall k :: 0 <= k < |password| ==> password[k] in ComposeAlphabet(r.options)
  {
    Sample(ComposeAlphabet(r.options), r.draws)
  }

  /** Shows a new password and records it at the end of the history. */
  function Record(s: Session, password: string): (r: Session)
    ensures r.current == password
    ensures |r.history| == |s.history| + 1
    ensures r.history[..|s.history|] == s.history
    ensures r.history[|s.history|] == password
  {
    Session(s.history + [password], password)
  }

  /** Generate: compose, sample, score, show, and append to the history. */
  function GeneratePassword(s: Session, r: Request): (out: Outcome)
    requires ValidRequest(r)
    ensures |out.password| == r.options.length
    ensures SliderMin <= |out.password| <= SliderMax
    ensures forall k :: 0 <= k < |out.password| ==> out.password[k] in ComposeAlphabet(r.options)
    ensures out.status == Copied
    ensures out.strength == CalculateStrength(out.password) && out.strength <= MaxScore
    ensures out.session.current == out.password
    ensures |out.session.history| == |s.history| + 1
    ensures out.session.history[..|s.history|] == s.history
    ensures out.session.history[|s.history|] == out.password
  {
    var password := PasswordFor(r);
    var status := if |password| > 0 then Copied else NotGenerated;
    Outcome(Record(s, password), password, CalculateStrength(password), status)
  }

  /** The session once the window is up: the constructor ends by generating
      one password, so the history holds exactly that password and the
      display shows it. */
  function Startup(r: Request): (s: Session)
    requires ValidRequest(r)
    ensures s.history == [PasswordFor(r)]
    ensures s.current == PasswordFor(r)
  {
    GeneratePassword(Start, r).session
  }

  /** Clear History: the history becomes empty; the display is untouched. */
  function ClearHistory(s: Session): (r: Session)
    ensures r.history == []
    ensures r.current == s.current
  {
    s.(history := [])
  }

  predicate AllValid(reqs: seq<Request>) {
    forall k :: 0 <= k < |reqs| ==> ValidRequest(reqs[k])
  }

  lemma AllValidTail(reqs: seq<Request>)
    requires |reqs| > 0 && AllValid(reqs)
    ensures AllValid(reqs[1..])
  {
    forall k | 0 <= k < |reqs[1..]|
      ensures ValidRequest(reqs[1..][k])
    {
      assert reqs[1..][k] == reqs[k + 1];
    }
  }

  /** The session after a run of Generate presses. */
  function Replay(s: Session, reqs: seq<Request>): (r: Session)
    requires AllValid(reqs)
    ensures |r.history| == |s.history| + |reqs|
    ensures r.history[..|s.history|] == s.history
    decreases |reqs|
  {
    if |reqs| == 0 then s
    else
      AllValidTail(reqs);
      var next := GeneratePassword(s, reqs[0]).session;
      var r := Replay(next, reqs[1..]);
      assert r.history[..|s.history|] == next.history[..|s.history|];
      r
  }

  /** The passwords a run of requests produces, in call order. */
  function Passwords(reqs: seq<Request>): (ps: seq<string>)
    requires AllValid(reqs)
    ensures |ps| == |reqs|
    decreases |reqs|
  {
    if |reqs| == 0 then []
    else
      AllValidTail(reqs);
      [PasswordFor(reqs[0])] + Passwords(reqs[1..])
  }

  /** Records a run of passwords one after another. */
  function RecordAll(s: Session, ps: seq<string>): Session
    decreases |ps|
  {
    if |ps| == 0 then s else RecordAll(Record(s, ps[0]), ps[1..])
  }

  /** Recording a run of passwords appends them to the history in order and
      leaves the last one on display. */
  lemma {:induction false} RecordAllAppends(s: Session, ps: seq<string>)
    ensures RecordAll(s, ps).history == s.history + ps
    ensures |ps| > 0 ==> RecordAll(s, ps).current == ps[|ps| - 1]
    decreases |ps|
  {
    if |ps| > 0 {
      var next := Record(s, ps[0]);
      assert next.history == s.history + [ps[0]];
      RecordAllAppends(next, ps[1..]);
      assert s.history + [ps[0]] + ps[1..] == s.history + ps;
      if |ps| > 1 {
        assert ps[1..][|ps[1..]| - 1] == ps[|ps| - 1];
      }
    }
  }

  /** A run of Generate presses records the run's passwords. */
  lemma {:induction false} ReplayRecordsPasswords(s: Session, reqs: seq<Request>)
    requires AllValid(reqs)
    ensures Replay(s, reqs) == RecordAll(s, Passwords(reqs))
    decreases |reqs|
  {
    if |reqs| > 0 {
      AllValidTail(reqs);
      var ps := Passwords(reqs);
      ReplayRecordsPasswords(Record(s, PasswordFor(reqs[0])), reqs[1..]);
      assert ps[0] == PasswordFor(reqs[0]) && ps[1..] == Passwords(reqs[1..]);
    }
  }

  /** Generating N times appends the N passwords to the history, in call
      order, after the entries already there; the display shows the last. */
  lemma ReplayAppendsInOrder(s: Session, reqs: seq<Request>)
    requires AllValid(reqs)
    ensures Replay(s, reqs).history == s.history + Passwords(reqs)
    ensures |reqs| > 0 ==> Replay(s, reqs).current == Passwords(reqs)[|reqs| - 1]
  {
    ReplayRecordsPasswords(s, reqs);
    RecordAllAppends(s, Passwords(reqs));
  }

  /** Entry k of the new part of the history is the password of request k. */
  lemma ReplayEntry(s: Session, reqs: seq<Request>, k: nat)
    requires AllValid(reqs)
    requires k < |reqs|
    ensures Replay(s, reqs).history[|s.history| + k] == PasswordFor(reqs[k])
  {
    ReplayAppendsInOrder(s, reqs);
    PasswordsAt(reqs, k);
  }

  lemma {:induction false} PasswordsAt(reqs: seq<Request>, k: nat)
    requires AllValid(reqs)
    requires k < |reqs|
    ensures Passwords(reqs)[k] == PasswordFor(reqs[k])
    decreases k
  {
    AllValidTail(reqs);
    if k > 0 {
      PasswordsAt(reqs[1..], k - 1);
      assert reqs[1..][k - 1] == reqs[k];
    }
  }

  /** Clearing after any number of generations leaves an empty history. */
  lemma ClearAfterReplay(s: Session, reqs: seq<Request>)
    requires AllValid(reqs)
    ensures ClearHistory(Replay(s, reqs)).history == []
    ensures ClearHistory(Replay(s, reqs)).current == Replay(s, reqs).current
  {
  }
}

// Many callers sharing one agent connection (pkg/agent/client.go against the serve
// loop of server.go), as a transition system. Requests draw their ID before they
// take the lock; one is in flight at a time; either direction may fail at any step.
//
// The client keeps one JSON encoder and one decoder for the life of the connection.
// An encoder that met a write error, and a decoder that met a read or syntax error,
// returns that error ever after. A decoder forgets only a value of the wrong type,
// which it has consumed.
module Rpc {
  import opened Common
  import opened Agent

  type Tid = nat

  datatype Caller =
    | Numbering(op: Op)             // before seq.Add
    | Locking(req: Request)         // before mu.Lock
    | Sending(req: Request)         // holds the lock, before Encode
    | Receiving(req: Request)       // holds the lock, before Decode
    | SendFailed(req: Request)
    | RecvFailed(req: Request)
    | Returned(req: Request, result: Result)

  datatype ServerPc = Idle | Handling(req: Request) | Replying(resp: Response) | Down

  // One request as the server handled it.
  datatype Exchange = Exchange(req: Request, os: Outcome, resp: Response)

  datatype Link = Link(
    drawn: seq<Request>,         // history: requests in the order their IDs were drawn
    lock: Option<Tid>,
    callers: map<Tid, Caller>,
    reqs: seq<Request>,          // the stream to the guest
    resps: seq<Response>,        // the stream from the guest
    encoderBroken: bool,
    decoderBroken: bool,
    server: ServerPc,
    files: Files,                // the guest
    locked: seq<Request>,        // history: requests in the order they took the lock
    sent: seq<Request>,          // history: requests that reached the stream
    served: seq<Exchange>)       // history: requests handled, with their answers

  datatype Action =
    | Call(t: Tid, op: Op)
    | Draw(t: Tid)
    | Lock(t: Tid)
    | Send(t: Tid)
    | SendFails(t: Tid, delivered: bool)
    | Receive(t: Tid)
    | RecvFails(t: Tid, consumed: bool)
    | Decode
    | Serve(os: Outcome)
    | Reply
    | ReplyFails(delivered: bool)
    | Drop                              // the server's end of the connection is closed

  predicate Fails(a: Action) { a.SendFails? || a.RecvFails? || a.ReplyFails? || a.Drop? }

  predicate Is(s: Link, t: Tid, c: Caller) { t in s.callers && s.callers[t] == c }

  predicate Can(s: Link, a: Action) {
    match a
    case Call(t, _) => t !in s.callers
    case Draw(t) => t in s.callers && s.callers[t].Numbering?
    case Lock(t) => t in s.callers && s.callers[t].Locking? && s.lock == None
    case Send(t) => t in s.callers && s.callers[t].Sending? && !s.encoderBroken
    case SendFails(t, delivered) => t in s.callers && s.callers[t].Sending? && (delivered ==> !s.encoderBroken)
    case Receive(t) => t in s.callers && s.callers[t].Receiving? && s.resps != [] && !s.decoderBroken
    case RecvFails(t, consumed) =>
      t in s.callers && s.callers[t].Receiving? && (consumed ==> s.resps != [] && !s.decoderBroken)
    case Decode => s.server.Idle? && s.reqs != []
    case Serve(_) => s.server.Handling?
    case Reply => s.server.Replying?
    case ReplyFails(_) => s.server.Replying?
    case Drop => true
  }

  function Goto(s: Link, t: Tid, c: Caller): Link { s.(callers := s.callers[t := c]) }

  function Deliver(s: Link, req: Request): Link { s.(reqs := s.reqs + [req], sent := s.sent + [req]) }

  function Do(s: Link, a: Action): Link
    requires Can(s, a)
  {
    match a
    case Call(t, op) => Goto(s, t, Numbering(op))
    case Draw(t) =>
      var req := Request((|s.drawn| + 1) % WRAP, s.callers[t].op);
      Goto(s.(drawn := s.drawn + [req]), t, Locking(req))
    case Lock(t) =>
      var req := s.callers[t].req;
      Goto(s.(lock := Some(t), locked := s.locked + [req]), t, Sending(req))
    case Send(t) => Goto(Deliver(s, s.callers[t].req), t, Receiving(s.callers[t].req))
    case SendFails(t, delivered) =>
      var req := s.callers[t].req;
      Goto((if delivered then Deliver(s, req) else s).(lock := None, encoderBroken := true), t, SendFailed(req))
    case Receive(t) =>
      var req := s.callers[t].req;
      Goto(s.(resps := s.resps[1..], lock := None), t, Returned(req, Check(req, s.resps[0])))
    case RecvFails(t, consumed) =>
      var s' := if consumed then s.(resps := s.resps[1..]) else s.(decoderBroken := true);
      Goto(s'.(lock := None), t, RecvFailed(s.callers[t].req))
    case Decode => s.(reqs := s.reqs[1..], server := Handling(s.reqs[0]))
    case Serve(os) =>
      var (files', resp) := Handle(s.files, s.server.req, os);
      s.(files := files', server := Replying(resp), served := s.served + [Exchange(s.server.req, os, resp)])
    case Reply => s.(resps := s.resps + [s.server.resp], server := Idle)
    case ReplyFails(delivered) =>
      s.(resps := if delivered then s.resps + [s.server.resp] else s.resps, server := Down)
    case Drop => s.(server := Down)
  }

  predicate CanRun(s: Link, run: seq<Action>)
    decreases |run|
  {
    run == [] || (Can(s, run[0]) && CanRun(Do(s, run[0]), run[1..]))
  }

  function RunTo(s: Link, run: seq<Action>): Link
    requires CanRun(s, run)
    decreases |run|
  {
    if run == [] then s else RunTo(Do(s, run[0]), run[1..])
  }

  function Start(files: Files): Link {
    Link([], None, map[], [], [], false, false, Idle, files, [], [], [])
  }

  // The request a caller is about, once it has one.
  function RequestOf(c: Caller): Option<Request> {
    match c
    case Numbering(_) => None
    case Locking(r) => Some(r)
    case Sending(r) => Some(r)
    case Receiving(r) => Some(r)
    case SendFailed(r) => Some(r)
    case RecvFailed(r) => Some(r)
    case Returned(r, _) => Some(r)
  }

  // -------- a caller that reads a response reads its own --------

  // The server answered req with resp.
  ghost predicate AnswerTo(s: Link, req: Request, resp: Response) {
    resp.id == req.id && exists i :: 0 <= i < |s.served| && s.served[i].req == req && s.served[i].resp == resp
  }

  predicate Quiet(s: Link) { s.reqs == [] && s.resps == [] && (s.server.Idle? || s.server.Down?) }

  // The request in flight, or its answer, is all there is on the connection; a server
  // that has gone may have taken it along.
  ghost predicate Carries(s: Link, r: Request) {
    || (s.resps == [] && s.reqs == [r] && (s.server.Idle? || s.server.Down?))
    || (s.resps == [] && s.reqs == [] && (s.server == Handling(r) || s.server.Down?))
    || (s.resps == [] && s.reqs == [] && s.server.Replying? && AnswerTo(s, r, s.server.resp))
    || (|s.resps| == 1 && s.reqs == [] && AnswerTo(s, r, s.resps[0]) && (s.server.Idle? || s.server.Down?))
  }

  // Only the lock's holder is past it.
  ghost predicate Exclusive(s: Link) {
    && (forall t :: t in s.callers && (s.callers[t].Sending? || s.callers[t].Receiving?) ==> s.lock == Some(t))
    && (s.lock.Some? ==> var t := s.lock.value; t in s.callers && (s.callers[t].Sending? || s.callers[t].Receiving?))
  }

  // A broken encoder leaves nobody waiting for a response, a broken decoder lets nobody
  // read one, and until either breaks the connection carries the holder's request alone.
  ghost predicate InStep(s: Link) {
    && (s.encoderBroken ==> forall t :: t in s.callers ==> !s.callers[t].Receiving?)
    && (!s.encoderBroken && !s.decoderBroken ==>
          match s.lock
          case None => Quiet(s)
          case Some(t) =>
            t in s.callers && if s.callers[t].Receiving? then Carries(s, s.callers[t].req) else Quiet(s))
  }

  ghost predicate Answered(s: Link) {
    forall t :: t in s.callers && s.callers[t].Returned? ==>
      var c := s.callers[t]; AnswerTo(s, c.req, c.result.resp) && c.result == Check(c.req, c.result.resp)
  }

  lemma AnswersLast(s: Link, s': Link)
    requires s.served <= s'.served
    ensures forall q, r :: AnswerTo(s, q, r) ==> AnswerTo(s', q, r)
  {
    forall q, r | AnswerTo(s, q, r) ensures AnswerTo(s', q, r) {
      var i :| 0 <= i < |s.served| && s.served[i].req == q && s.served[i].resp == r;
      assert s'.served[i] == s.served[i];
    }
  }

  lemma EchoesId(files: Files, req: Request, os: Outcome)
    ensures Handle(files, req, os).1.id == req.id
  {
  }

  lemma StepKeepsInStep(s: Link, a: Action)
    requires Exclusive(s) && InStep(s) && Answered(s) && Can(s, a)
    ensures Exclusive(Do(s, a)) && InStep(Do(s, a)) && Answered(Do(s, a))
  {
    var s' := Do(s, a);
    AnswersLast(s, s');
    if a.Serve? {
      EchoesId(s.files, s.server.req, a.os);
      assert s'.served[|s.served|] == Exchange(s.server.req, a.os, s'.server.resp);
      assert AnswerTo(s', s.server.req, s'.server.resp);
    }
  }

  lemma {:induction false} RunKeepsInStep(s: Link, run: seq<Action>)
    requires Exclusive(s) && InStep(s) && Answered(s) && CanRun(s, run)
    ensures Exclusive(RunTo(s, run)) && InStep(RunTo(s, run)) && Answered(RunTo(s, run))
    decreases |run|
  {
    if run != [] {
      StepKeepsInStep(s, run[0]);
      RunKeepsInStep(Do(s, run[0]), run[1..]);
    }
  }

  // The ID check never fires: for every interleaving and every failure of either
  // direction, a round trip that reads a response reads the answer to its own request.
  lemma NeverMismatched(files0: Files, run: seq<Action>, t: Tid)
    requires CanRun(Start(files0), run)
    requires var s := RunTo(Start(files0), run); t in s.callers && s.callers[t].Returned?
    ensures var s := RunTo(Start(files0), run);
      !s.callers[t].result.Mismatched? && AnswerTo(s, s.callers[t].req, s.callers[t].result.resp)
  {
    RunKeepsInStep(Start(files0), run);
  }

  ghost predicate Broken(s: Link) { s.decoderBroken || s.encoderBroken }

  lemma {:induction false} StaysBroken(s: Link, run: seq<Action>, t: Tid)
    requires Exclusive(s) && InStep(s) && Answered(s) && Broken(s) && CanRun(s, run)
    requires t in RunTo(s, run).callers && RunTo(s, run).callers[t].Returned?
    ensures t in s.callers && s.callers[t] == RunTo(s, run).callers[t]
    decreases |run|
  {
    if run != [] {
      StepKeepsInStep(s, run[0]);
      StaysBroken(Do(s, run[0]), run[1..], t);
    }
  }

  // A connection whose encoder or decoder has met an error answers nobody any more.
  lemma NoAnswerAfterBreak(files0: Files, run: seq<Action>, more: seq<Action>, t: Tid)
    requires CanRun(Start(files0), run) && Broken(RunTo(Start(files0), run)) && CanRun(RunTo(Start(files0), run), more)
    requires var s' := RunTo(RunTo(Start(files0), run), more); t in s'.callers && s'.callers[t].Returned?
    ensures var s := RunTo(Start(files0), run); t in s.callers && s.callers[t] == RunTo(s, more).callers[t]
  {
    RunKeepsInStep(Start(files0), run);
    StaysBroken(RunTo(Start(files0), run), more, t);
  }

  // -------- IDs are drawn once --------

  // In order, too.
  ghost predicate Numbered(s: Link) {
    forall i :: 0 <= i < |s.drawn| ==> s.drawn[i].id == i + 1
  }

  ghost predicate CallersSound(s: Link) {
    forall t :: t in s.callers && RequestOf(s.callers[t]).Some? ==> RequestOf(s.callers[t]).value in s.drawn
  }

  lemma StepKeepsNumbered(s: Link, a: Action)
    requires Numbered(s) && CallersSound(s) && Can(s, a) && |Do(s, a).drawn| < WRAP
    ensures Numbered(Do(s, a)) && CallersSound(Do(s, a))
  {
  }

  // -------- the server answers each request that reached it once, in order --------

  ghost function Pending(s: Link): seq<Request> {
    (if s.server.Handling? then [s.server.req] else []) + s.reqs
  }

  function Served(s: seq<Exchange>): (r: seq<Request>)
    ensures |r| == |s| && forall i :: 0 <= i < |s| ==> r[i] == s[i].req
  {
    seq(|s|, i requires 0 <= i < |s| => s[i].req)
  }

  // What was sent is what was served, then what is being served, then what waits
  // (a dropped connection loses the request being handled and everything after it).
  ghost predicate InOrder(s: Link) {
    && Served(s.served) <= s.sent
    && (!s.server.Down? ==> s.sent == Served(s.served) + Pending(s))
  }

  // No request is sent twice, nor sent before its caller tried to.
  ghost predicate NoResend(s: Link) {
    && NoDup(s.sent)
    && (forall t :: t in s.callers && (s.callers[t].Locking? || s.callers[t].Sending?) ==> s.callers[t].req !in s.sent)
    && (forall r :: r in s.sent ==> r in s.drawn)
  }

  // No two callers have the same request.
  ghost predicate OwnRequests(s: Link) {
    forall t, u :: t in s.callers && u in s.callers && t != u && RequestOf(s.callers[t]).Some? ==>
      RequestOf(s.callers[t]) != RequestOf(s.callers[u])
  }

  ghost predicate SentOnce(s: Link) { NoResend(s) && OwnRequests(s) }

  lemma StepKeepsOrder(s: Link, a: Action)
    requires InOrder(s) && Can(s, a)
    ensures InOrder(Do(s, a))
  {
    var s' := Do(s, a);
    if a.Serve? {
      assert Served(s'.served) == Served(s.served) + [s.server.req];
    }
  }

  lemma DrawKeepsSentOnce(s: Link, t: Tid)
    requires Numbered(s) && CallersSound(s) && SentOnce(s) && Can(s, Draw(t)) && |s.drawn| + 1 < WRAP
    ensures SentOnce(Do(s, Draw(t)))
  {
    assert Do(s, Draw(t)).callers[t].req !in s.drawn;
  }

  lemma StepKeepsOwnRequests(s: Link, a: Action)
    requires OwnRequests(s) && Can(s, a) && !a.Draw?
    ensures OwnRequests(Do(s, a))
  {
    forall t ensures t in Do(s, a).callers && !(a.Call? && a.t == t) ==>
      t in s.callers && RequestOf(Do(s, a).callers[t]) == RequestOf(s.callers[t])
    {
    }
  }

  lemma StepKeepsSentOnce(s: Link, a: Action)
    requires SentOnce(s) && CallersSound(s) && Can(s, a) && !a.Draw?
    ensures SentOnce(Do(s, a))
  {
    StepKeepsOwnRequests(s, a);
  }

  // The guest is as if the requests served had been handled one after the other.
  function Outcomes(s: seq<Exchange>): (r: seq<Outcome>)
    ensures |r| == |s| && forall i :: 0 <= i < |s| ==> r[i] == s[i].os
  {
    seq(|s|, i requires 0 <= i < |s| => s[i].os)
  }

  function Replies(s: seq<Exchange>): (r: seq<Response>)
    ensures |r| == |s| && forall i :: 0 <= i < |s| ==> r[i] == s[i].resp
  {
    seq(|s|, i requires 0 <= i < |s| => s[i].resp)
  }

  ghost predicate Sequential(files0: Files, s: Link) {
    Answers(files0, Served(s.served), Outcomes(s.served)) == (s.files, Replies(s.served))
  }

  lemma StepKeepsSequential(files0: Files, s: Link, a: Action)
    requires Sequential(files0, s) && Can(s, a)
    ensures Sequential(files0, Do(s, a))
  {
    var s' := Do(s, a);
    if a.Serve? {
      var n := |s.served|;
      assert Served(s'.served)[..n] == Served(s.served);
      assert Outcomes(s'.served)[..n] == Outcomes(s.served);
      assert Replies(s'.served) == Replies(s.served) + [s'.server.resp];
    }
  }

  ghost predicate Sound(files0: Files, s: Link) {
    Numbered(s) && CallersSound(s) && InOrder(s) && SentOnce(s) && Sequential(files0, s)
  }

  lemma StepDraws(s: Link, a: Action)
    requires Can(s, a)
    ensures |s.drawn| <= |Do(s, a).drawn|
  {
  }

  lemma {:induction false} RunDraws(s: Link, run: seq<Action>)
    requires CanRun(s, run)
    ensures |s.drawn| <= |RunTo(s, run).drawn|
    decreases |run|
  {
    if run != [] {
      StepDraws(s, run[0]);
      RunDraws(Do(s, run[0]), run[1..]);
    }
  }

  lemma {:induction false} RunKeepsSound(files0: Files, s: Link, run: seq<Action>)
    requires Sound(files0, s) && CanRun(s, run) && |RunTo(s, run).drawn| < WRAP
    ensures Sound(files0, RunTo(s, run))
    decreases |run|
  {
    if run != [] {
      var s' := Do(s, run[0]);
      RunDraws(s', run[1..]);
      StepKeepsNumbered(s, run[0]);
      StepKeepsOrder(s, run[0]);
      if run[0].Draw? {
        DrawKeepsSentOnce(s, run[0].t);
      } else {
        StepKeepsSentOnce(s, run[0]);
      }
      StepKeepsSequential(files0, s, run[0]);
      RunKeepsSound(files0, s', run[1..]);
    }
  }

  // RPC pairing. Whatever fails and however callers interleave (short of 2^64
  // requests), a round trip that returns a response returns the answer the server gave
  // to that very request, which it handled exactly once; the ID check passed.
  lemma RpcPairing(files0: Files, run: seq<Action>, t: Tid)
    requires CanRun(Start(files0), run) && |RunTo(Start(files0), run).drawn| < WRAP
    requires var s := RunTo(Start(files0), run); t in s.callers && s.callers[t].Returned?
    ensures var s := RunTo(Start(files0), run);
      var c := s.callers[t];
      && c.result == (if c.result.resp.err == "" then Ok(c.result.resp) else Refused(c.result.resp))
      && exists i :: 0 <= i < |s.served| && s.served[i].req == c.req && s.served[i].resp == c.result.resp
           && forall j :: 0 <= j < |s.served| && s.served[j].req == c.req ==> j == i
  {
    NeverMismatched(files0, run, t);
    RunKeepsInStep(Start(files0), run);
    RunKeepsSound(files0, Start(files0), run);
    var s := RunTo(Start(files0), run);
    var c := s.callers[t];
    var i :| 0 <= i < |s.served| && s.served[i].req == c.req && s.served[i].resp == c.result.resp;
    ServedOnce(files0, s, i, c.req);
  }

  lemma ServedOnce(files0: Files, s: Link, i: nat, req: Request)
    requires Sound(files0, s) && i < |s.served| && s.served[i].req == req
    ensures forall j :: 0 <= j < |s.served| && s.served[j].req == req ==> j == i
  {
    forall j | 0 <= j < |s.served| && s.served[j].req == req ensures j == i {
      assert Served(s.served)[i] == s.sent[i] && Served(s.served)[j] == s.sent[j];
    }
  }

  // What the caller holds is what happened in the guest: over every run, a caller that
  // returned holds the answer that is true of its own request, of the files the requests
  // served before it left, and of the outcome with which the server served it. For a
  // command that is its output and exit code.
  lemma AnswerIsOutcome(files0: Files, run: seq<Action>, t: Tid)
    requires CanRun(Start(files0), run) && |RunTo(Start(files0), run).drawn| < WRAP
    requires var s := RunTo(Start(files0), run); t in s.callers && s.callers[t].Returned?
    ensures var s := RunTo(Start(files0), run);
      var c := s.callers[t];
      exists i :: 0 <= i < |s.served| && s.served[i].req == c.req
        && (var before := Answers(files0, Served(s.served[..i]), Outcomes(s.served[..i])).0;
            Truthful(before, c.req, s.served[i].os, c.result.resp))
        && (c.req.op.Exec? && |c.req.op.cmd| > 0 && s.served[i].os.err == "" ==>
              && c.result.Ok? && c.result.resp.stdout == s.served[i].os.stdout
              && c.result.resp.stderr == s.served[i].os.stderr && c.result.resp.exitCode == s.served[i].os.exitCode)
  {
    RpcPairing(files0, run, t);
    ServedInOrder(files0, run);
    var s := RunTo(Start(files0), run);
    var c := s.callers[t];
    var i :| 0 <= i < |s.served| && s.served[i].req == c.req && s.served[i].resp == c.result.resp;
    AnswerAt(files0, Served(s.served), Outcomes(s.served), i);
    assert Served(s.served)[..i] == Served(s.served[..i]) && Outcomes(s.served)[..i] == Outcomes(s.served[..i]);
    assert Replies(s.served)[i] == c.result.resp;
    HandleIsTruthful(Answers(files0, Served(s.served[..i]), Outcomes(s.served[..i])).0, c.req, s.served[i].os);
  }

  // The requests are served in the order they were sent, each at most once, with the
  // answers a single-threaded guest would give.
  lemma ServedInOrder(files0: Files, run: seq<Action>)
    requires CanRun(Start(files0), run) && |RunTo(Start(files0), run).drawn| < WRAP
    ensures var s := RunTo(Start(files0), run);
      && Served(s.served) <= s.sent && NoDup(s.sent)
      && Answers(files0, Served(s.served), Outcomes(s.served)) == (s.files, Replies(s.served))
  {
    RunKeepsSound(files0, Start(files0), run);
  }

  // Whatever the server handled last leaves a file alone unless it is a command or a
  // write that failed or names that file.
  predicate Spares(e: Exchange, path: string) {
    match e.req.op
    case Exec(cmd, _) => |cmd| == 0
    case WriteFile(p, _, _) => e.os.err == "" && p != path
    case _ => true
  }

  lemma {:induction false} FileStays(files: Files, es: seq<Exchange>, path: string)
    requires forall e :: e in es ==> Spares(e, path)
    ensures var after := Answers(files, Served(es), Outcomes(es)).0;
      (path in after <==> path in files) && (path in files ==> after[path] == files[path])
  {
    if es != [] {
      var n := |es| - 1;
      assert es[n] in es;
      assert Served(es)[..n] == Served(es[..n]) && Outcomes(es)[..n] == Outcomes(es[..n]);
      FileStays(files, es[..n], path);
    }
  }

  // The n-th answer is what handling the n-th request gives after the ones before it.
  lemma {:induction false} AnswerAt(files: Files, reqs: seq<Request>, oss: seq<Outcome>, n: nat)
    requires n < |reqs| == |oss|
    ensures Answers(files, reqs, oss).1[n] == Handle(Answers(files, reqs[..n], oss[..n]).0, reqs[n], oss[n]).1
    decreases |reqs|
  {
    var m := |reqs| - 1;
    if n < m {
      AnswerAt(files, reqs[..m], oss[..m], n);
      assert reqs[..m][..n] == reqs[..n] && oss[..m][..n] == oss[..n];
    }
  }

  // Serving a list is serving its two parts one after the other.
  lemma {:induction false} AnswersSplit(files: Files, reqs: seq<Request>, oss: seq<Outcome>, n: nat)
    requires n <= |reqs| == |oss|
    ensures Answers(files, reqs, oss).0 == Answers(Answers(files, reqs[..n], oss[..n]).0, reqs[n..], oss[n..]).0
    decreases |reqs|
  {
    if n == |reqs| {
      assert reqs[..n] == reqs && oss[..n] == oss;
    } else {
      var m := |reqs| - 1;
      var rest, ross := reqs[n..], oss[n..];
      AnswersSplit(files, reqs[..m], oss[..m], n);
      assert reqs[..m][..n] == reqs[..n] && oss[..m][..n] == oss[..n];
      assert |rest| == m - n + 1 && rest[..m - n] == reqs[..m][n..] && ross[..m - n] == oss[..m][n..];
    }
  }

  // A file written through the agent reads back as written: if the server handled a
  // successful write and later a successful read of the same path, with nothing in
  // between that may touch it, the read's answer carries the bytes of the write.
  lemma FileRoundTrip(files0: Files, run: seq<Action>, i: nat, j: nat)
    requires CanRun(Start(files0), run) && |RunTo(Start(files0), run).drawn| < WRAP
    requires var s := RunTo(Start(files0), run);
      && i < j < |s.served|
      && s.served[i].req.op.WriteFile? && s.served[i].os.err == ""
      && s.served[j].req.op == ReadFile(s.served[i].req.op.path) && s.served[j].os.err == ""
      && forall k :: i < k < j ==> Spares(s.served[k], s.served[i].req.op.path)
    ensures var s := RunTo(Start(files0), run);
      s.served[j].resp.err == "" && s.served[j].resp.data == s.served[i].req.op.data
  {
    ServedInOrder(files0, run);
    var es := RunTo(Start(files0), run).served;
    AnswerAt(files0, Served(es), Outcomes(es), j);
    assert Replies(es)[j] == es[j].resp;
    ReadsBack(files0, es, i, j);
  }

  lemma ReadsBack(files0: Files, es: seq<Exchange>, i: nat, j: nat)
    requires i < j < |es| && es[i].req.op.WriteFile? && es[i].os.err == ""
    requires forall k :: i < k < j ==> Spares(es[k], es[i].req.op.path)
    ensures var files := Answers(files0, Served(es)[..j], Outcomes(es)[..j]).0; var w := es[i].req.op;
      w.path in files && files[w.path].data == w.data
  {
    var reqs, oss := Served(es)[..j], Outcomes(es)[..j];
    AnswersSplit(files0, reqs, oss, i + 1);
    var after := Answers(files0, reqs[..i + 1], oss[..i + 1]).0;
    assert reqs[..i + 1][..i] == reqs[..i];
    assert es[i].req.op.path in after && after[es[i].req.op.path].data == es[i].req.op.data;
    var rest := es[i + 1..j];
    assert Served(rest) == reqs[i + 1..] && Outcomes(rest) == oss[i + 1..];
    FileStays(after, rest, es[i].req.op.path);
  }

  // -------- without failures --------

  // The requests that took the lock are those sent, and the one being sent.
  ghost predicate LockOrder(s: Link) {
    && !s.server.Down? && !s.encoderBroken && !s.decoderBroken
    && match s.lock
       case None => s.locked == s.sent
       case Some(t) =>
         t in s.callers &&
         match s.callers[t]
         case Sending(r) => s.locked == s.sent + [r]
         case Receiving(_) => s.locked == s.sent
         case _ => false
  }

  lemma StepKeepsLockOrder(s: Link, a: Action)
    requires LockOrder(s) && Exclusive(s) && Can(s, a) && !Fails(a)
    ensures LockOrder(Do(s, a))
  {
  }

  lemma {:induction false} RunKeepsLockOrder(s: Link, run: seq<Action>)
    requires LockOrder(s) && Exclusive(s) && InStep(s) && Answered(s) && InOrder(s) && CanRun(s, run)
    requires forall a :: a in run ==> !Fails(a)
    ensures var s' := RunTo(s, run); LockOrder(s') && Exclusive(s') && InStep(s') && InOrder(s')
    decreases |run|
  {
    if run != [] {
      assert run[0] in run;
      StepKeepsLockOrder(s, run[0]);
      StepKeepsInStep(s, run[0]);
      StepKeepsOrder(s, run[0]);
      RunKeepsLockOrder(Do(s, run[0]), run[1..]);
    }
  }

  // With no transport failure both streams are empty whenever the lock is free, and the
  // requests served are those that took the lock, in that order, all but the one in
  // flight.
  lemma WithoutFailures(files0: Files, run: seq<Action>)
    requires CanRun(Start(files0), run) && forall a :: a in run ==> !Fails(a)
    ensures var s := RunTo(Start(files0), run);
      && (s.lock == None ==> s.reqs == [] && s.resps == [] && Served(s.served) == s.locked)
      && Served(s.served) <= s.locked && |s.locked| <= |s.served| + 1
  {
    RunKeepsLockOrder(Start(files0), run);
  }
}

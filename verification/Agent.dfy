// The guest agent (pkg/agent/server.go, proto.go): what one request does, as a
// function and as the server's own step-by-step method, and the serve loop.
module Agent {
  type Byte = b: int | 0 <= b < 256
  type Bytes = seq<Byte>

  datatype Op =
    | Ping
    | Exec(cmd: seq<string>, env: seq<string>)
    | WriteFile(path: string, data: Bytes, mode: nat)
    | ReadFile(path: string)
    | ConfigureNet(cfg: string)
    | Unknown(name: string)

  datatype Request = Request(id: nat, op: Op)
  datatype Response = Response(id: nat, err: string, exitCode: int, stdout: Bytes, stderr: Bytes, data: Bytes)

  datatype File = File(data: Bytes, mode: nat)
  type Files = map<string, File>

  // What the guest's operating system answers: an error text ("" for success), for
  // a command its exit code and output, and the files after an effect that is not
  // determined by the request (a command, or a failed write).
  datatype Outcome = Outcome(err: string, exitCode: int, stdout: Bytes, stderr: Bytes, files: Files)

  function Blank(id: nat): Response { Response(id, "", 0, [], [], []) }

  // The file a successful write leaves: the mode applies to new files only, and a
  // zero mode means 0644.
  function Written(files: Files, path: string, data: Bytes, mode: nat): File {
    File(data, if path in files then files[path].mode else if mode == 0 then 0x1a4 else mode)
  }

  function Handle(files: Files, req: Request, os: Outcome): (Files, Response) {
    var r := Blank(req.id);
    match req.op
    case Ping => (files, r)
    case Exec(cmd, _) =>
      if |cmd| == 0 then (files, r.(err := "empty cmd"))
      else
        var code := if os.err == "" then os.exitCode else 0;
        (os.files, r.(err := os.err, exitCode := code, stdout := os.stdout, stderr := os.stderr))
    case WriteFile(path, data, mode) =>
      if os.err != "" then (os.files, r.(err := os.err))
      else (files[path := Written(files, path, data, mode)], r)
    case ReadFile(path) =>
      if os.err != "" then (files, r.(err := os.err))
      else if path !in files then (files, r.(err := "no such file or directory"))
      else (files, r.(data := files[path].data))
    case ConfigureNet(_) => (files, r.(err := os.err))
    case Unknown(name) => (files, r.(err := "unknown op: " + name))
  }

  // What a response owes its request and what the operating system answered: the ID, the
  // command's own output and exit code, the file's bytes, and an error exactly when
  // something went wrong.
  ghost predicate Truthful(files: Files, req: Request, os: Outcome, resp: Response) {
    && resp.id == req.id
    && (match req.op
        case Ping => resp.err == ""
        case Exec(cmd, _) =>
          if |cmd| == 0 then resp.err == "empty cmd" && resp.stdout == [] && resp.stderr == [] && resp.exitCode == 0
          else
            && resp.stdout == os.stdout && resp.stderr == os.stderr && resp.err == os.err
            && resp.exitCode == (if os.err == "" then os.exitCode else 0)
        case WriteFile(_, _, _) => resp.err == os.err
        case ReadFile(path) =>
          && (resp.err == "" <==> os.err == "" && path in files)
          && (os.err != "" ==> resp.err == os.err)
          && resp.data == if resp.err == "" then files[path].data else []
        case ConfigureNet(_) => resp.err == os.err
        case Unknown(name) => resp.err == "unknown op: " + name)
    && (!req.op.Exec? ==> resp.stdout == [] && resp.stderr == [] && resp.exitCode == 0)
    && (!req.op.ReadFile? ==> resp.data == [])
  }

  // What a request leaves in the guest: a successful write sets that one file, keeping the
  // mode of one that was there; a command, or a failed write, leaves what it leaves.
  ghost predicate Effective(files: Files, req: Request, os: Outcome, files': Files) {
    match req.op
    case Exec(cmd, _) => files' == if |cmd| == 0 then files else os.files
    case WriteFile(path, data, mode) =>
      if os.err != "" then files' == os.files
      else
        && (path in files' && files'[path].data == data)
        && files'[path].mode == (if path in files then files[path].mode else if mode == 0 then 0x1a4 else mode)
        && (forall p :: p != path ==> (p in files' <==> p in files) && (p in files ==> files'[p] == files[p]))
    case _ => files' == files
  }

  lemma HandleIsTruthful(files: Files, req: Request, os: Outcome)
    ensures Truthful(files, req, os, Handle(files, req, os).1)
  {
  }

  // The connection: one FIFO stream each way.
  class Conn {
    var reqs: seq<Request>
    var resps: seq<Response>

    constructor ()
      ensures reqs == [] && resps == []
    {
      reqs, resps := [], [];
    }
  }

  // The answers to a list of requests served one after the other.
  function Answers(files: Files, reqs: seq<Request>, oss: seq<Outcome>): (r: (Files, seq<Response>))
    requires |reqs| == |oss|
    ensures |r.1| == |reqs|
  {
    if reqs == [] then (files, [])
    else
      var n := |reqs| - 1;
      var (before, rs) := Answers(files, reqs[..n], oss[..n]);
      var (after, r) := Handle(before, reqs[n], oss[n]);
      (after, rs + [r])
  }

  lemma OneAnswer(files: Files, req: Request, os: Outcome)
    ensures Answers(files, [req], [os]) == (Handle(files, req, os).0, [Handle(files, req, os).1])
  {
    assert [req][..0] == [] && [os][..0] == [];
    var none: seq<Response> := Answers(files, [], []).1;
    assert none + [Handle(files, req, os).1] == [Handle(files, req, os).1];
  }

  lemma NextAnswer(files: Files, reqs: seq<Request>, oss: seq<Outcome>, n: nat)
    requires n < |reqs| == |oss|
    ensures var (before, rs) := Answers(files, reqs[..n], oss[..n]);
      var (after, r) := Handle(before, reqs[n], oss[n]);
      Answers(files, reqs[..n + 1], oss[..n + 1]) == (after, rs + [r]) && (rs + [r])[..n] == rs
  {
    assert reqs[..n + 1][..n] == reqs[..n] && oss[..n + 1][..n] == oss[..n];
  }

  class Server {
    var files: Files

    constructor (files: Files)
      ensures this.files == files
    {
      this.files := files;
    }

    // handle and execCmd: the response starts blank but for the request's ID and is
    // filled in field by field.
    method HandleRequest(req: Request, os: Outcome) returns (resp: Response)
      modifies this
      ensures (files, resp) == Handle(old(files), req, os)
      ensures Truthful(old(files), req, os, resp)
      ensures Effective(old(files), req, os, files)
    {
      resp := Blank(req.id);
      match req.op {
        case Ping =>
        case Exec(cmd, _) =>
          if |cmd| == 0 {
            resp := resp.(err := "empty cmd");
            return;
          }
          files := os.files;
          resp := resp.(stdout := os.stdout, stderr := os.stderr);
          if os.err == "" {
            resp := resp.(exitCode := os.exitCode);
          } else {
            resp := resp.(err := os.err);
          }
        case WriteFile(path, data, mode) =>
          var m := mode;
          if m == 0 {
            m := 0x1a4;
          }
          if os.err != "" {
            files := os.files;
            resp := resp.(err := os.err);
          } else {
            files := files[path := File(data, if path in files then files[path].mode else m)];
          }
        case ReadFile(path) =>
          if os.err != "" {
            resp := resp.(err := os.err);
          } else if path !in files {
            resp := resp.(err := "no such file or directory");
          } else {
            resp := resp.(data := files[path].data);
          }
        case ConfigureNet(_) =>
          resp := resp.(err := os.err);
        case Unknown(name) =>
          resp := resp.(err := "unknown op: " + name);
      }
    }

    // The serve loop: each request is decoded, handled and answered before the next is
    // looked at, until the stream ends, a frame is bad or a reply cannot be sent.
    method ServeConn(conn: Conn, oss: seq<Outcome>, cut: Cut)
      requires |oss| == |conn.reqs|
      modifies this, conn
      ensures var reqs := old(conn.reqs);
        var h, r := Handled(cut, |reqs|), Replied(cut, |reqs|);
        && conn.reqs == reqs[h..]
        && files == Answers(old(files), reqs[..h], oss[..h]).0
        && conn.resps == old(conn.resps) + Answers(old(files), reqs[..h], oss[..h]).1[..r]
    {
      ghost var all, answers: seq<Response> := conn.reqs, [];
      var n := 0;
      while conn.reqs != []
        invariant 0 <= n <= |all| && conn.reqs == all[n..] && |oss| == |all|
        invariant cut.BadFrame? ==> n <= cut.at || |all| < cut.at
        invariant cut.LostReply? ==> n <= cut.at || |all| <= cut.at
        invariant Answers(old(files), all[..n], oss[..n]) == (files, answers)
        invariant conn.resps == old(conn.resps) + answers
        decreases |all| - n
      {
        if cut == BadFrame(n) {
          return;
        }
        var req := conn.reqs[0];
        conn.reqs := conn.reqs[1..];
        var resp := HandleRequest(req, oss[n]);
        n := n + 1;
        NextAnswer(old(files), all, oss, n - 1);
        answers := answers + [resp];
        if cut.LostReply? && cut.at == n - 1 {
          if cut.delivered {
            conn.resps := conn.resps + [resp];
          }
          return;
        }
        conn.resps := conn.resps + [resp];
      }
    }
  }

  // How a served connection ends early: request number `at` does not decode, or its
  // reply meets an error, before or after the bytes went out.
  datatype Cut = Whole | BadFrame(at: nat) | LostReply(at: nat, delivered: bool)

  // Of n requests on the stream, how many are handled, and how many replies get out.
  function Handled(cut: Cut, n: nat): (h: nat)
    ensures h <= n
  {
    match cut
    case Whole => n
    case BadFrame(at) => if at < n then at else n
    case LostReply(at, _) => if at < n then at + 1 else n
  }

  function Replied(cut: Cut, n: nat): (r: nat)
    ensures r <= Handled(cut, n)
  {
    if cut.LostReply? && cut.at < n && !cut.delivered then cut.at else Handled(cut, n)
  }

  // The client's counter is an atomic 64-bit integer.
  const WRAP: nat := 0x1_0000_0000_0000_0000

  datatype Result = Ok(resp: Response) | Refused(resp: Response) | Mismatched(resp: Response)

  function Check(req: Request, resp: Response): Result {
    if resp.id != req.id then Mismatched(resp)
    else if resp.err != "" then Refused(resp)
    else Ok(resp)
  }

  // What roundTrip returns: a result, or the error of one direction.
  datatype Trip = Got(result: Result) | SendError | RecvError

  // What may go wrong on the client's side. A garbled response is one of the wrong type.
  datatype Fault = Healthy | SendFault(delivered: bool) | RecvFault | Garbled

  class Client {
    const conn: Conn
    var seqNo: nat
    var encoderBroken: bool
    var decoderBroken: bool

    // As long as neither direction has failed for good, nothing is left over.
    ghost predicate Valid()
      reads this, conn
    {
      seqNo < WRAP && (encoderBroken || decoderBroken || (conn.reqs == [] && conn.resps == []))
    }

    constructor (conn: Conn)
      requires conn.reqs == [] && conn.resps == []
      ensures Valid() && this.conn == conn && seqNo == 0 && !encoderBroken && !decoderBroken
    {
      this.conn := conn;
      seqNo, encoderBroken, decoderBroken := 0, false, false;
    }

    // roundTrip, with a server that serves whatever has arrived. It reads the oldest
    // response in the stream; whatever failed before, that is never another's answer.
    method RoundTrip(op: Op, server: Server, oss: seq<Outcome>, cut: Cut, fault: Fault) returns (r: Trip)
      requires Valid() && |oss| == |conn.reqs| + 1
      modifies this, conn, server
      ensures Valid() && seqNo == (old(seqNo) + 1) % WRAP
      ensures old(encoderBroken) ==> r == SendError && server.files == old(server.files)
      ensures old(encoderBroken || decoderBroken) ==> r.SendError? || r.RecvError?
      ensures old(encoderBroken) ==> encoderBroken
      ensures old(decoderBroken) ==> decoderBroken
      ensures r.SendError? <==> old(encoderBroken) || fault.SendFault?
      ensures r.Got? ==>
        var req := Request(seqNo, op);
        var (files', answer) := Handle(old(server.files), req, oss[0]);
        server.files == files' && r.result == if answer.err == "" then Ok(answer) else Refused(answer)
      ensures !old(encoderBroken || decoderBroken) && cut.Whole? && fault.Healthy? ==> r.Got?
    {
      seqNo := (seqNo + 1) % WRAP;
      var req := Request(seqNo, op);
      if encoderBroken {
        return SendError;
      }
      if fault.SendFault? {
        encoderBroken := true;
        if fault.delivered {
          conn.reqs := conn.reqs + [req];
          server.ServeConn(conn, oss, cut);
        }
        return SendError;
      }
      if decoderBroken {
        conn.reqs := conn.reqs + [req];
        server.ServeConn(conn, oss, cut);
        return RecvError;
      }
      Exchange(req, server, oss[0], cut);
      if conn.resps == [] || fault.RecvFault? {
        decoderBroken := true;
        return RecvError;
      }
      var resp := conn.resps[0];
      conn.resps := conn.resps[1..];
      if fault.Garbled? {
        return RecvError;
      }
      return Got(Check(req, resp));
    }

    // One request over a connection that carries nothing: its answer comes back, or
    // nothing does.
    method Exchange(req: Request, server: Server, os: Outcome, cut: Cut)
      requires conn.reqs == [] && conn.resps == []
      modifies conn, server
      ensures conn.resps == [] ||
        var (files', answer) := Handle(old(server.files), req, os);
        conn.reqs == [] && conn.resps == [answer] && server.files == files'
      ensures cut.Whole? ==> conn.resps != []
    {
      conn.reqs := [req];
      OneAnswer(server.files, req, os);
      assert [req][..0] == [] && [os][..0] == [] && [req][..1] == [req] && [os][..1] == [os] && [req][1..] == [];
      server.ServeConn(conn, [os], cut);
    }
  }
}

/** What /exec forwards to the guest agent, and what the agent makes of it. */
module Commands {
  import opened Options
  import opened Text
  import opened RunExec

  // ------------------------------------------------------------- messages

  datatype ExecRequest = ExecRequest(
    useShell: bool, cmd: string, argv: seq<string>, timeoutMs: int, maxOutput: int)

  datatype Request = Request(kind: string, exec: Option<ExecRequest>, net: Option<(string, string)>)

  datatype Response = Response(ok: bool, error: string, exec: Option<ExecResponse>, net: Option<bool>)

  // ------------------------------------------------------------- the agent

  datatype Argv = Argv(words: seq<string>) | Unusable(msg: string)

  /** normalizeArgv. */
  function NormalizeArgv(q: ExecRequest): Argv {
    var cmd := TrimSpace(q.cmd);
    if q.useShell then
      if cmd == "" then Unusable("use_shell set but cmd is empty") else Argv(["/bin/sh", "-lc", cmd])
    else if q.argv == [] then
      if cmd != "" then Unusable("cmd provided without use_shell; provide argv or set use_shell")
      else Unusable("argv is required when not using shell")
    else Argv(q.argv)
  }

  /** What happens to a command the agent tries to run. */
  datatype Fate = NoPipe(msg: string) | NotStarted(msg: string) | Joined(ended: Outcome)

  function Failed(code: int, msg: string): Outcome {
    Outcome(ExecResponse(code, [], [], false), Fault(msg))
  }

  /** runExec. */
  function Execute(q: ExecRequest, fate: Fate): Outcome {
    match NormalizeArgv(q)
    case Unusable(msg) => Failed(2, msg)
    case Argv(_) =>
      match fate
      case NoPipe(msg) => Failed(1, msg)
      case NotStarted(msg) => Failed(127, msg)
      case Joined(ended) => ended
  }

  /** handle.  `net` is what configureNetwork returns. */
  function Handle(q: Request, fate: Fate, net: Fault): Response {
    if q.kind == "ping" then Response(true, "", None, None)
    else if q.kind == "exec" then
      if q.exec.None? then Response(false, "missing exec payload", None, None)
      else
        var o := Execute(q.exec.value, fate);
        Response(o.err.NoFault?, if o.err.NoFault? then "" else o.err.msg, Some(o.resp), None)
    else if q.kind == "net" then
      if q.net.None? then Response(false, "missing net payload", None, None)
      else Response(net.NoFault?, if net.NoFault? then "" else net.msg, None, Some(net.NoFault?))
    else Response(false, "unknown request type", None, None)
  }

  // ------------------------------------------------------------- the host

  /** The body of POST /exec. */
  datatype ExecCall = ExecCall(
    sandboxId: string, cmd: string, argv: seq<string>, useShell: Option<bool>, timeoutMs: int)

  datatype Config = Config(transport: string, execTimeoutMs: int, maxOutput: int)

  datatype Verdict =
    | BadRequest(msg: string)
    | OverSsh(command: string, ms: int)
    | OverAgent(q: ExecRequest)

  predicate Given(o: Option<bool>, b: bool) { o == Some(b) }

  /** handleExec's validation, from the body to the choice of a transport. */
  method Check(r: ExecCall, cfg: Config) returns (v: Verdict)
    ensures v.OverAgent? || v.OverSsh? <==> WellFormed(r) && Transportable(r, cfg)
    ensures v.OverSsh? ==> cfg.transport == "ssh" && v.command == TrimSpace(r.cmd) != ""
    ensures v.OverSsh? ==> v.ms == if r.timeoutMs > 0 then r.timeoutMs else cfg.execTimeoutMs
    ensures v.OverAgent? ==> cfg.transport in {"agent", ""} && v.q == ForwardOf(r, cfg)
    ensures v.OverAgent? ==> v.q.useShell == (r.argv == []) && v.q.cmd == TrimSpace(r.cmd) && v.q.argv == r.argv
    ensures v.OverAgent? ==> v.q.timeoutMs == if r.timeoutMs > 0 then r.timeoutMs else cfg.execTimeoutMs
    ensures v.OverAgent? ==> v.q.maxOutput == cfg.maxOutput
  {
    TrimSpaceMeaning(r.cmd);
    var timeout := cfg.execTimeoutMs;
    if r.timeoutMs > 0 { timeout := r.timeoutMs; }
    var cmd := TrimSpace(r.cmd);
    var useShell := false;
    if |r.argv| > 0 {
      if cmd != "" { return BadRequest("provide either cmd or argv, not both"); }
      useShell := false;
      if r.useShell == Some(true) { return BadRequest("use_shell=true is not valid with argv"); }
    } else if cmd != "" {
      useShell := true;
      if r.useShell == Some(false) { return BadRequest("use_shell=false is not valid with cmd; provide argv instead"); }
    } else {
      return BadRequest("cmd or argv is required");
    }
    if cfg.transport == "ssh" {
      if !useShell { return BadRequest("ssh transport only supports cmd (shell mode)"); }
      return OverSsh(cmd, timeout);
    } else if cfg.transport == "agent" || cfg.transport == "" {
      return OverAgent(ExecRequest(useShell, cmd, r.argv, timeout, cfg.maxOutput));
    } else {
      return BadRequest("unknown exec transport");
    }
  }

  /** Exactly one of cmd and argv says something, and use_shell does not contradict it. */
  predicate WellFormed(r: ExecCall) {
    && (r.argv == [] <==> !Blank(r.cmd))
    && !Given(r.useShell, r.argv != [])
  }

  predicate Transportable(r: ExecCall, cfg: Config) {
    cfg.transport in {"agent", ""} || (cfg.transport == "ssh" && r.argv == [])
  }

  /** The request /exec sends for a well-formed call. */
  function ForwardOf(r: ExecCall, cfg: Config): ExecRequest {
    ExecRequest(r.argv == [], TrimSpace(r.cmd), r.argv,
                if r.timeoutMs > 0 then r.timeoutMs else cfg.execTimeoutMs, cfg.maxOutput)
  }

  /** Host and agent agree: what the host forwards, the agent runs, as a login shell on
      the trimmed command or as the argv untouched. */
  lemma ForwardedIsAccepted(r: ExecCall, cfg: Config)
    requires WellFormed(r)
    ensures NormalizeArgv(ForwardOf(r, cfg))
            == Argv(if r.argv == [] then ["/bin/sh", "-lc", TrimSpace(r.cmd)] else r.argv)
  {
    TrimSpaceMeaning(r.cmd);
    TrimmedIsFixed(TrimSpace(r.cmd));
  }

  /** What the agent refuses to run: a shell request without a command, and any other
      without an argv. */
  lemma UnusableExactly(q: ExecRequest)
    ensures NormalizeArgv(q).Unusable? <==> if q.useShell then Blank(q.cmd) else q.argv == []
    ensures NormalizeArgv(q).Argv? ==>
      NormalizeArgv(q).words == if q.useShell then ["/bin/sh", "-lc", TrimSpace(q.cmd)] else q.argv
  {
    TrimSpaceMeaning(q.cmd);
  }

  function ExecMessage(q: ExecRequest): Request {
    Request("exec", Some(q), None)
  }

  /** The host may dereference the exec part of every answer to its exec request, and the
      answer says ok exactly when the command was run and joined without a fault. */
  lemma OkCarriesExec(q: ExecRequest, fate: Fate, net: Fault)
    ensures Handle(ExecMessage(q), fate, net).exec.Some?
    ensures Handle(ExecMessage(q), fate, net).ok <==> NormalizeArgv(q).Argv? && fate.Joined? && fate.ended.err.NoFault?
    ensures Handle(ExecMessage(q), fate, net).ok ==>
      Handle(ExecMessage(q), fate, net) == Response(true, "", Some(fate.ended.resp), None)
  {
  }

  /** What a refused command looks like: an exit code for each way it was not run, no
      output, and the reason; a fault of the join keeps the result it came with. */
  lemma RefusalCodes(q: ExecRequest, fate: Fate, net: Fault)
    requires !Handle(ExecMessage(q), fate, net).ok
    ensures var a := Handle(ExecMessage(q), fate, net); a.net.None? && a.exec.Some?
    ensures var a := Handle(ExecMessage(q), fate, net);
      if NormalizeArgv(q).Unusable? then
        a.exec.value == ExecResponse(2, [], [], false) && a.error == NormalizeArgv(q).msg
      else match fate
        case NoPipe(msg) => a.exec.value == ExecResponse(1, [], [], false) && a.error == msg
        case NotStarted(msg) => a.exec.value == ExecResponse(127, [], [], false) && a.error == msg
        case Joined(ended) => ended.err.Fault? && a.exec.value == ended.resp && a.error == ended.err.msg
  {
  }

  /** The other requests: a ping is always answered, the network as it turned out, and
      anything without its payload or of an unknown kind is refused. */
  lemma OkOfOthers(q: Request, fate: Fate, net: Fault)
    requires q.kind != "exec" || q.exec.None?
    ensures Handle(q, fate, net).ok <==> q.kind == "ping" || (q.kind == "net" && q.net.Some? && net.NoFault?)
  {
  }

  /** From the answer back to the command: when the fate is a join under this request's
      output limit, an answer that says ok reports that run, its exit status and the
      beginning of what it wrote. */
  lemma OkReportsTheRun(q: ExecRequest, s: RunExec.State, net: Fault)
    requires Reachable(q.maxOutput, s) && s.main == Returned
    ensures var a := Handle(ExecMessage(q), Joined(s.result), net); a.ok ==>
      && a.exec.Some?
      && a.exec.value.stdout <= s.out.written && a.exec.value.stderr <= s.err.written
      && |a.exec.value.stdout| <= (if q.maxOutput <= 0 then 1048576 else q.maxOutput)
      && |a.exec.value.stderr| <= (if q.maxOutput <= 0 then 1048576 else q.maxOutput)
      && (a.exec.value.timedOut <==> s.killed)
      && (if s.killed then a.exec.value.exitCode == 124
          else !s.status.WaitFailed? && a.exec.value.exitCode == if s.status.Success? then 0 else s.status.code)
  {
    JoinTheorem(q.maxOutput, s);
  }

  /** It may not do so for the answer to any other request: an OK answer carries no exec
      part then, so a reply taken from another request would be a nil dereference. */
  lemma OkWithoutExec(q: Request, fate: Fate, net: Fault)
    requires Handle(q, fate, net).ok
    ensures Handle(q, fate, net).exec.Some? <==> q.kind == "exec"
  {
  }
}

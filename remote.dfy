/** The SSH remote executor: choosing how to authenticate, connecting, routing
    commands (with the sudo rewrite and the password on stdin), and the two
    upload operations. The SSH library and the remote host are one abstract
    channel: `Server` says which credentials it accepts, how it answers a
    command, and which paths it lets SFTP write; what went over the channel is
    kept, in order, as a list of events. */
module Remote {
  import opened Py

  /** How the client authenticates. */
  datatype Credential = KeyFile(path: string) | PasswordAuth(password: string)

  /** What the remote side gives back for one exec_command: the text read from
      stdout and stderr and the channel's exit status, or an exception (a
      timeout, a closed channel, undecodable output). */
  datatype Reply =
    | Answered(stdout: string, stderr: string, exitStatus: int)
    | Broken(exc: Exception)

  /** The remote host, as seen through the SSH library. `accepts` decides a
      connection attempt (host, port, username, credential); `answer` answers a
      command given the text written to its stdin; `sftpWritable` says whether
      SFTP can open and write a remote path; `sftpPuts` whether a local file
      can be put at a remote path. */
  datatype Server = Server(
    accepts: (string, int, Option<string>, Credential) -> bool,
    answer: (string, string) -> Reply,
    sftpWritable: string -> bool,
    sftpPuts: (string, string) -> bool)

  /** The constructor's arguments. */
  datatype Config = Config(
    hostname: string,
    port: int,
    username: Option<string>,
    password: Option<string>,
    keyPath: Option<string>,
    server: Server)

  /** `self.client`: None, an SSHClient whose connect did not succeed, a
      connected one, or one that has been closed. */
  datatype ClientState = NoClient | Unconnected | Connected | Closed

  /** What went over the channel. */
  datatype Event =
    | Exec(command: string, stdin: string)
    | Put(localPath: string, remotePath: string)
    | Write(remotePath: string, content: string)

  /** The authentication connect uses: the key file when one is given, else
      the password, else none (connect raises ValueError, which it catches). */
  function AuthFor(keyPath: Option<string>, password: Option<string>): (c: Option<Credential>)
    ensures TextTruthy(keyPath) ==> c == Some(KeyFile(keyPath.value))
    ensures !TextTruthy(keyPath) && TextTruthy(password) ==> c == Some(PasswordAuth(password.value))
    ensures c.None? <==> !TextTruthy(keyPath) && !TextTruthy(password)
  {
    if TextTruthy(keyPath) then Some(KeyFile(keyPath.value))
    else if TextTruthy(password) then Some(PasswordAuth(password.value))
    else None
  }

  /** The client after connect: a fresh SSHClient is stored first, so a
      failed attempt leaves an unconnected client rather than None. */
  function ConnectState(cfg: Config): (s: ClientState)
    ensures s == Connected || s == Unconnected
    ensures s == Connected <==>
              AuthFor(cfg.keyPath, cfg.password).Some?
              && cfg.server.accepts(cfg.hostname, cfg.port, cfg.username, AuthFor(cfg.keyPath, cfg.password).value)
  {
    match AuthFor(cfg.keyPath, cfg.password)
    case None => Unconnected
    case Some(c) =>
      if cfg.server.accepts(cfg.hostname, cfg.port, cfg.username, c) then Connected else Unconnected
  }

  /** str.replace('sudo ', 'sudo -S -p "" ', 1) */
  function SudoRewrite(command: string): string {
    ReplaceFirst(command, "sudo ", "sudo -S -p \"\" ")
  }

  /** What call_sudo_command writes to stdin: the password and a newline, only
      when a non-empty password is stored. */
  function StdinFor(password: Option<string>): string {
    if TextTruthy(password) then password.value + "\n" else ""
  }

  /** Whether run_command hands a command to call_sudo_command. */
  predicate IsSudo(command: string) {
    StartsWith(Strip(command), "sudo ")
  }

  /** The command actually sent and what goes to its stdin. */
  function Routed(password: Option<string>, command: string): (string, string) {
    if IsSudo(command) then (SudoRewrite(command), StdinFor(password)) else (command, "")
  }

  /** One exec_command on the client, and what it puts on the channel. Only
      stdout and stderr are returned; the exit status is read and dropped.
      A client that never reached `client.connect` (no credential) or was
      closed has no transport; one the server refused has an inactive one. */
  function ExecOutcome(cfg: Config, client: ClientState, command: string, stdin: string)
    : (Result<(string, string)>, seq<Event>)
  {
    match client
    case Connected =>
      (match cfg.server.answer(command, stdin)
       case Answered(out, err, _) => (Ok((out, err)), [Exec(command, stdin)])
       case Broken(e) => (Raised(e), [Exec(command, stdin)]))
    case NoClient => (Raised(Exception(AttributeError, "'NoneType' object has no attribute 'exec_command'")), [])
    case Unconnected =>
      if AuthFor(cfg.keyPath, cfg.password).None?
      then (Raised(Exception(AttributeError, "'NoneType' object has no attribute 'open_session'")), [])
      else (Raised(Exception(SSHException, "SSH session not active")), [])
    case Closed => (Raised(Exception(AttributeError, "'NoneType' object has no attribute 'open_session'")), [])
  }

  function NoConnection(cfg: Config): Exception {
    Exception(ConnectionError, "Could not establish connection to " + cfg.hostname)
  }

  /** run_command from a given client state: the outcome, the client after it
      and the events it adds. */
  function RunOutcome(cfg: Config, client: ClientState, command: string)
    : (r: (Result<(string, string)>, ClientState, seq<Event>))
    ensures r.1 != NoClient
    ensures client != NoClient ==> r.1 == client
    ensures r.1 != Connected ==> r.0.Raised? && r.2 == []
    ensures |r.2| <= 1
    ensures r.2 != [] ==> r.2[0] == Exec(Routed(cfg.password, command).0, Routed(cfg.password, command).1)
  {
    var c := if client == NoClient then ConnectState(cfg) else client;
    if client == NoClient && c != Connected then (Raised(NoConnection(cfg)), c, [])
    else
      var sent := Routed(cfg.password, command);
      var out := ExecOutcome(cfg, c, sent.0, sent.1);
      (out.0, c, out.1)
  }

  class RemoteExecutor {
    const cfg: Config
    var client: ClientState
    /** Everything this executor sent over the channel, oldest first. */
    var channel: seq<Event>

    constructor (cfg: Config)
      ensures this.cfg == cfg && client == NoClient && channel == []
    {
      this.cfg := cfg;
      client := NoClient;
      channel := [];
    }

    /** connect: every failure, including a missing credential, is reported
        as false. */
    method Connect() returns (ok: bool)
      modifies this
      ensures client == ConnectState(cfg) && channel == old(channel)
      ensures ok <==> client == Connected
    {
      client := Unconnected;
      var auth := AuthFor(cfg.keyPath, cfg.password);
      if auth.None? {
        return false;
      }
      if cfg.server.accepts(cfg.hostname, cfg.port, cfg.username, auth.value) {
        client := Connected;
        return true;
      }
      return false;
    }

    /** disconnect: closes whatever client is stored; None stays None. */
    method Disconnect()
      modifies this
      ensures client == (if old(client) == NoClient then NoClient else Closed)
      ensures channel == old(channel)
    {
      if client != NoClient {
        client := Closed;
      }
    }

    method ExecCommand(command: string, stdin: string) returns (r: Result<(string, string)>)
      modifies this
      ensures (r, channel) == (ExecOutcome(cfg, old(client), command, stdin).0,
                              old(channel) + ExecOutcome(cfg, old(client), command, stdin).1)
      ensures client == old(client)
    {
      var out := ExecOutcome(cfg, client, command, stdin);
      channel := channel + out.1;
      r := out.0;
    }

    /** run_command: connects first when there is no client at all, then
        routes sudo commands through call_sudo_command. */
    method RunCommand(command: string) returns (r: Result<(string, string)>)
      modifies this
      ensures var o := RunOutcome(cfg, old(client), command);
              r == o.0 && client == o.1 && channel == old(channel) + o.2
    {
      if client == NoClient {
        var ok := Connect();
        if !ok {
          return Raised(NoConnection(cfg));
        }
      }
      if IsSudo(command) {
        r := CallSudoCommand(command);
      } else {
        r := ExecCommand(command, "");
      }
    }

    /** call_sudo_command: `sudo -S -p ""` in place of the first `sudo `, and
        the password on stdin. */
    method CallSudoCommand(command: string) returns (r: Result<(string, string)>)
      modifies this
      ensures var o := ExecOutcome(cfg, old(client), SudoRewrite(command), StdinFor(cfg.password));
              r == o.0 && channel == old(channel) + o.1
      ensures client == old(client)
    {
      r := ExecCommand(SudoRewrite(command), StdinFor(cfg.password));
    }

    /** upload_file: false without a client, and false when SFTP fails. */
    method UploadFile(localPath: string, remotePath: string) returns (ok: bool)
      modifies this
      ensures ok <==> UploadFileWorks(cfg, old(client), localPath, remotePath)
      ensures channel == old(channel) + (if ok then [Put(localPath, remotePath)] else [])
      ensures client == old(client)
    {
      if client == NoClient {
        return false;
      }
      if client == Connected && cfg.server.sftpPuts(localPath, remotePath) {
        channel := channel + [Put(localPath, remotePath)];
        return true;
      }
      return false;
    }

    /** upload_script_content: write through SFTP, then `sudo chmod +x`; an
        exception from either makes it false, the chmod's own output does not. */
    method UploadScriptContent(content: string, remotePath: string) returns (ok: bool)
      modifies this
      ensures var o := UploadScriptOutcome(cfg, old(client), content, remotePath);
              ok == o.0 && client == old(client) && channel == old(channel) + o.1
    {
      if client == NoClient {
        return false;
      }
      if !(client == Connected && cfg.server.sftpWritable(remotePath)) {
        return false;
      }
      channel := channel + [Write(remotePath, content)];
      var chmod := RunCommand(ChmodCommand(remotePath));
      return chmod.Ok?;
    }
  }

  predicate UploadFileWorks(cfg: Config, client: ClientState, localPath: string, remotePath: string) {
    client == Connected && cfg.server.sftpPuts(localPath, remotePath)
  }

  function ChmodCommand(remotePath: string): string {
    "sudo chmod +x " + remotePath
  }

  /** upload_script_content from a given client state: whether it reports
      success, and the events it adds. */
  function UploadScriptOutcome(cfg: Config, client: ClientState, content: string, remotePath: string)
    : (bool, seq<Event>)
  {
    if client != Connected || !cfg.server.sftpWritable(remotePath) then (false, [])
    else
      var chmod := RunOutcome(cfg, client, ChmodCommand(remotePath));
      (chmod.0.Ok?, [Write(remotePath, content)] + chmod.2)
  }

  // ---------------------------------------------------------------------------
  // Properties

  /** With neither a key path nor a password, connecting never succeeds. */
  lemma NoCredentialNoConnection(cfg: Config)
    requires !TextTruthy(cfg.keyPath) && !TextTruthy(cfg.password)
    ensures ConnectState(cfg) == Unconnected
  {
  }

  /** A key path wins over a password: the password is not even offered. */
  lemma KeyPreferred(cfg: Config)
    requires TextTruthy(cfg.keyPath)
    ensures ConnectState(cfg) == Connected
            <==> cfg.server.accepts(cfg.hostname, cfg.port, cfg.username, KeyFile(cfg.keyPath.value))
  {
  }

  /** Without a client, a failed connect raises ConnectionError and sends
      nothing; the client then stays unconnected (not None), so later calls do
      not try to connect again. */
  lemma LazyConnectFails(cfg: Config, command: string)
    requires ConnectState(cfg) != Connected
    ensures var o := RunOutcome(cfg, NoClient, command);
            o.0 == Raised(NoConnection(cfg)) && o.1 == Unconnected && o.2 == []
            && RunOutcome(cfg, o.1, command).0.Raised? && RunOutcome(cfg, o.1, command).2 == []
  {
  }

  /** On a connected client, a command that is not a sudo command is sent
      verbatim with nothing on stdin, and its stdout and stderr come back
      whatever the exit status. */
  lemma PlainCommandVerbatim(cfg: Config, command: string)
    requires !IsSudo(command)
    ensures var o := RunOutcome(cfg, Connected, command);
            o.1 == Connected && o.2 == [Exec(command, "")]
            && (cfg.server.answer(command, "").Answered? ==>
                  o.0 == Ok((cfg.server.answer(command, "").stdout, cfg.server.answer(command, "").stderr)))
  {
  }

  /** A sudo command goes through the rewrite, with the password on stdin. */
  lemma SudoCommandRewritten(cfg: Config, command: string)
    requires IsSudo(command)
    ensures RunOutcome(cfg, Connected, command).2 == [Exec(SudoRewrite(command), StdinFor(cfg.password))]
  {
  }

  /** The sudo the rewrite replaces is the leading one of a routed command:
      only whitespace comes before it. */
  lemma SudoRewriteLeading(command: string)
    requires IsSudo(command)
    ensures var k := |command| - |LStrip(command)|;
            && 0 <= k && k + 5 <= |command|
            && (forall i :: 0 <= i < k ==> IsSpace(command[i]))
            && "sudo " <= command[k..]
            && SudoRewrite(command) == command[..k] + "sudo -S -p \"\" " + command[k + 5..]
  {
    LStripIsSuffix(command);
    var k := |command| - |LStrip(command)|;
    var w, rest := command[..k], command[k..];
    assert w + rest == command;
    LStripSkipsSpace(command);
    SudoAfterSpace(command);
    assert rest == LStrip(command);
    var r := "sudo -S -p \"\" ";
    ReplaceAfterSpace(w, rest, "sudo ", r);
    calc {
      SudoRewrite(command);
      ReplaceFirst(w + rest, "sudo ", r);
      w + r + rest[5..];
      { assert rest[5..] == command[k + 5..]; }
      command[..k] + r + command[k + 5..];
    }
  }

  /** A routed command has `sudo ` right after its leading whitespace. */
  lemma SudoAfterSpace(command: string)
    requires IsSudo(command)
    ensures "sudo " <= LStrip(command)
  {
    var l := LStrip(command);
    RStripIsPrefix(l);
    assert Strip(command) == RStrip(l);
    assert RStrip(l) == l[..|RStrip(l)|];
  }

  /** The password reaches stdin exactly when a non-empty one is stored. */
  lemma PasswordOnStdin(password: Option<string>)
    ensures StdinFor(password) != "" <==> TextTruthy(password)
  {
  }

  /** Both uploads refuse without a client and then add nothing. */
  lemma UploadsNeedClient(cfg: Config, content: string, localPath: string, remotePath: string)
    ensures !UploadFileWorks(cfg, NoClient, localPath, remotePath)
    ensures UploadScriptOutcome(cfg, NoClient, content, remotePath) == (false, [])
  {
  }

  /** A script upload that succeeds writes the content and then issues the
      chmod, through the sudo rewrite, as its only command. */
  lemma UploadScriptChmods(cfg: Config, content: string, remotePath: string)
    requires UploadScriptOutcome(cfg, Connected, content, remotePath).0
    ensures UploadScriptOutcome(cfg, Connected, content, remotePath).1
            == [Write(remotePath, content),
                Exec(SudoRewrite(ChmodCommand(remotePath)), StdinFor(cfg.password))]
  {
    ChmodIsSudo(remotePath);
  }

  lemma ChmodIsSudo(remotePath: string)
    ensures IsSudo(ChmodCommand(remotePath))
  {
    var c := ChmodCommand(remotePath);
    assert c[0] == 's' && c[5] == 'c' && c[..5] == "sudo ";
    StripKeepsWord(c, 5);
  }
}

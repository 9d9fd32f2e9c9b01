/**
 * The compose-file generator of generate_compose.py: the user directive
 * chosen from the passwd/group lookups, the compose text built from the
 * parameters, the write step with its exit status, and the command-line
 * defaults.  The text of the file is modelled as its lines (`ComposeLines`),
 * line k being line 24 + k of the source's template; the file's content is
 * those lines, each followed by a newline (`ComposeContent`).
 */
module Compose {
  import opened Wrappers
  import opened Decimal
  import opened Text
  import opened Layout

  /** The arguments of generate_compose_yaml other than the output path. */
  datatype Params = Params(
    hostPort: int,
    containerPort: int,
    userName: string,
    projectsSubdir: string,
    configSubdir: string,
    useDockerSocket: bool)

  /** A uid and a gid. */
  type Ids = (nat, nat)

  // ---------------------------------------------------------------------------
  // The user directive

  /**
   * The host's user and group databases as the lookups see them: the uid of
   * each user name, and the gid of each group name.
   */
  type UserDb = map<string, nat>
  type GroupDb = map<string, nat>

  /**
   * The uid of the passwd entry named `userName` and the gid of the group of
   * the same name; nothing when either lookup fails.
   */
  function LookupIds(passwd: UserDb, groups: GroupDb, userName: string): (r: Option<Ids>)
    ensures r.Some? <==> userName in passwd && userName in groups
    ensures r.Some? ==> r.value.0 == passwd[userName] && r.value.1 == groups[userName]
  {
    if userName in passwd && userName in groups then Some((passwd[userName], groups[userName]))
    else None
  }

  function UserKey(): string { "user: \"" }
  function UserPlaceholder(): string { "# user: \"<uid>:<gid>\"" + " # Set manually if needed" }

  /** The `user:` setting when the ids are known, else a commented placeholder. */
  function UserDirective(ids: Option<Ids>): (d: string)
    ensures OneLine(d)
    ensures |d| > |UserKey()| && (d[0] == '#' <==> ids.None?)
    ensures ids.Some? ==> d[..|UserKey()|] == UserKey()
  {
    match ids
    case Some((uid, gid)) =>
      NatNumeralHasNoSeparator(uid, '\n');
      NatNumeralHasNoSeparator(gid, '\n');
      UserKey() + NatToString(uid) + ":" + NatToString(gid) + "\""
    case None => UserPlaceholder()
  }

  /** Reads a uid and a gid back from an active `user: "<uid>:<gid>"` setting. */
  function ParseUserDirective(d: string): Option<Ids> {
    match Unwrap(d, UserKey(), '"')
    case None => None
    case Some(inner) =>
      match SplitAtFirst(inner, ':')
      case None => None
      case Some((uid, gid)) =>
        if |uid| > 0 && |gid| > 0 && AllDigits(uid) && AllDigits(gid)
        then Some((ParseNat(uid), ParseNat(gid)))
        else None
  }

  // ---------------------------------------------------------------------------
  // The parameter-dependent entries

  function DockerSocket(): string { "/var/run/docker.sock" }
  function SocketMount(): string { DockerSocket() + ":" + DockerSocket() }

  /** The socket mount line: an active entry, or the same entry commented out. */
  function SocketLine(useDockerSocket: bool): string {
    if useDockerSocket then Item(SocketMount()) else Note("- " + SocketMount())
  }

  /** The quoted `"<host>:<container>"` port mapping. */
  function PortMapping(hostPort: int, containerPort: int): string {
    "\"" + IntToString(hostPort) + ":" + IntToString(containerPort) + "\""
  }

  /** Reads the host port and the container port back from a quoted port mapping. */
  function ParsePortMapping(v: string): Option<(int, int)> {
    match Unwrap(v, "\"", '"')
    case None => None
    case Some(inner) =>
      match SplitAtFirst(inner, ':')
      case None => None
      case Some((host, container)) =>
        match (ParseInt(host), ParseInt(container))
        case (Some(h), Some(c)) => Some((h, c))
        case _ => None
  }

  /** The volume of the config directory; the template has a space after it. */
  function ConfigVolume(configSubdir: string): string {
    "./" + configSubdir + ":/home/coder/.config "
  }

  function LocalShareVolume(configSubdir: string): string {
    "./" + configSubdir + "/local-share" + ":/home/coder/.local/share/code-server"
  }

  function ProjectsVolume(projectsSubdir: string): string {
    "./" + projectsSubdir + ":/home/coder/projects"
  }

  // ---------------------------------------------------------------------------
  // The compose file

  const LineCount: nat := 31
  const ConfigVolumeLine: nat := 13
  const LocalShareVolumeLine: nat := 15
  const ProjectsVolumeLine: nat := 17
  const SocketLineIndex: nat := 19
  const PortLine: nat := 22
  const UserLine: nat := 25

  /** The lines that depend on a parameter or on the lookup. */
  predicate IsVariableLine(k: nat) {
    k == ConfigVolumeLine || k == LocalShareVolumeLine || k == ProjectsVolumeLine
    || k == SocketLineIndex || k == PortLine || k == UserLine
  }

  // The fixed comments of the template, and its longest fixed line.
  function ImageLine(): string { "    image: codercom/code-server:latest" + " # Official image" }
  function PasswordsNote(): string { "Optional: Set passwords " + "via environment variables if desired" }
  function PasswordNote(): string { "- PASSWORD=your_strong_password_here" + " # Set a fixed password" }
  function SudoPasswordNote(): string { "- SUDO_PASSWORD=optional_sudo_password" + " # If you need sudo inside" }
  function ConfigNote(): string { "Map config dir from host " + "(relative to compose file) to container" }
  function LocalShareNote(): string { "Map local settings dir from host " + "(relative to compose file) to container" }
  function ProjectsNote(): string { "Map projects dir from host " + "(relative to compose file) to container" }
  function SocketNote(): string { "Optional: Mount docker socket " + "(use with caution)" }
  function PortNote(): string { "Map host port to container port" }
  function UserNote(): string { "    # Run the container process " + "as the host user " + "for correct volume permissions" }

  // The file is written block by block, following its layout: the service
  // header, its environment, its volumes, its ports, restart policy and user,
  // and the network.  Line k of `ComposeLines` is line 24 + k of the template
  // in generate_compose.py.

  function HeaderBlock(): (ls: seq<string>)
    ensures |ls| == 6
  {
    [ "",
      "services:",
      "  code-server:",
      ImageLine(),
      "    container_name: code-server",
      "    command: [\"--cert\"]" ]
  }

  // Each list-valued key is its key line followed by its nested lines.

  function EnvironmentKey(): string { "    environment:" }
  function VolumesKey(): string { "    volumes:" }
  function PortsKey(): string { "    ports:" }

  function EnvironmentList(): (ls: seq<string>)
    ensures |ls| == 4
  {
    [ Note(PasswordsNote()),
      Note(PasswordNote()),
      Note(SudoPasswordNote()),
      Item("TZ=Etc/UTC") ]
  }

  function VolumesList(p: Params): (ls: seq<string>)
    ensures |ls| == 8
  {
    [ Note(ConfigNote()),
      Item(ConfigVolume(p.configSubdir)),
      Note(LocalShareNote()),
      Item(LocalShareVolume(p.configSubdir)),
      Note(ProjectsNote()),
      Item(ProjectsVolume(p.projectsSubdir)),
      Note(SocketNote()),
      SocketLine(p.useDockerSocket) ]
  }

  function PortsList(p: Params): (ls: seq<string>)
    ensures |ls| == 2
  {
    [ Note(PortNote()),
      Item(PortMapping(p.hostPort, p.containerPort)) ]
  }

  function RestartUserBlock(ids: Option<Ids>): (ls: seq<string>)
    ensures |ls| == 3
  {
    [ "    restart: unless-stopped",
      UserNote(),
      "    " + UserDirective(ids) ]
  }

  function NetworksBlock(): (ls: seq<string>)
    ensures |ls| == 5
  {
    [ "",
      "networks:",
      "  default:",
      "    name: code-server_network",
      "" ]
  }

  /** The lines of the compose file for parameters `p` and lookup outcome `ids`. */
  function ComposeLines(p: Params, ids: Option<Ids>): (ls: seq<string>)
    ensures |ls| == LineCount
  {
    HeaderBlock()
      + [EnvironmentKey()] + EnvironmentList()
      + [VolumesKey()] + VolumesList(p)
      + [PortsKey()] + PortsList(p)
      + RestartUserBlock(ids) + NetworksBlock()
  }

  /** The text written to the compose file. */
  function ComposeContent(p: Params, ids: Option<Ids>): string {
    Unlines(ComposeLines(p, ids))
  }

  // ---------------------------------------------------------------------------
  // Writing the file

  /** Removes trailing slashes, as Python's `rstrip('/')`. */
  function RStripSlashes(s: string): (r: string)
    ensures |r| <= |s| && r == s[..|r|]
    ensures r != [] ==> r[|r| - 1] != '/'
    ensures forall k :: |r| <= k < |s| ==> s[k] == '/'
    decreases |s|
  {
    if s != [] && s[|s| - 1] == '/' then RStripSlashes(s[..|s| - 1]) else s
  }

  predicate AllSlashes(s: string) {
    forall k :: 0 <= k < |s| ==> s[k] == '/'
  }

  /** The directory part of a path, as Python's `os.path.dirname` on POSIX. */
  function Dirname(path: string): (dir: string)
    ensures |dir| <= |path| && dir == path[..|dir|]
    ensures dir == "" <==> '/' !in path
  {
    match LastIndexOf(path, '/')
    case None => ""
    case Some(i) =>
      var head := path[..i + 1];
      assert head[i] == '/';
      if !AllSlashes(head) then
        var stripped := RStripSlashes(head);
        assert stripped != [];
        stripped
      else head
  }

  /**
   * What the filesystem does, which the model does not see: whether
   * `os.makedirs` of a non-empty directory path succeeds (an existing
   * directory is accepted), and whether opening and writing the file succeed.
   */
  datatype FileSystem = FileSystem(canMakeDirs: bool, canWrite: bool)

  /** The written file, or the failure that ends the program with status 1. */
  datatype Outcome = Written(path: string, content: string) | Failed

  function ExitStatus(o: Outcome): (code: int)
    ensures code == 0 <==> o.Written?
    ensures o.Failed? ==> code == 1
  {
    if o.Written? then 0 else 1
  }

  /**
   * `os.makedirs(dir, exist_ok=True)`: raises for the empty path whatever the
   * filesystem, since there is no directory "" to create.
   */
  function MakeDirsSucceeds(dir: string, fs: FileSystem): bool {
    dir != "" && fs.canMakeDirs
  }

  /** The write step as the source has it: makedirs of the dirname, then the write. */
  function WriteComposeAsWritten(outputPath: string, content: string, fs: FileSystem): (o: Outcome)
    ensures o.Written? <==> '/' in outputPath && fs.canMakeDirs && fs.canWrite
    ensures o.Written? ==> o == Written(outputPath, content)
  {
    if MakeDirsSucceeds(Dirname(outputPath), fs) && fs.canWrite then Written(outputPath, content)
    else Failed
  }

  /** The write step with the directory creation skipped when there is no directory part. */
  function WriteCompose(outputPath: string, content: string, fs: FileSystem): (o: Outcome)
    ensures o.Written? <==> ('/' !in outputPath || fs.canMakeDirs) && fs.canWrite
    ensures o.Written? ==> o == Written(outputPath, content)
  {
    var dir := Dirname(outputPath);
    if (dir == "" || MakeDirsSucceeds(dir, fs)) && fs.canWrite then Written(outputPath, content)
    else Failed
  }

  /**
   * generate_compose_yaml: look the user up, build the text, write it.  The
   * outcome depends on the output path and the filesystem only; a failed
   * lookup changes the text, not whether it is written.
   */
  function GenerateComposeYaml(
    outputPath: string, p: Params, passwd: UserDb, groups: GroupDb, fs: FileSystem): (o: Outcome)
    ensures o.Written? <==> '/' in outputPath && fs.canMakeDirs && fs.canWrite
    ensures o.Written? ==> o == Written(outputPath, ComposeContent(p, LookupIds(passwd, groups, p.userName)))
  {
    WriteComposeAsWritten(outputPath, ComposeContent(p, LookupIds(passwd, groups, p.userName)), fs)
  }

  /** generate_compose_yaml with the corrected write step. */
  function GenerateComposeYamlCorrected(
    outputPath: string, p: Params, passwd: UserDb, groups: GroupDb, fs: FileSystem): (o: Outcome)
    ensures o.Written? <==> ('/' !in outputPath || fs.canMakeDirs) && fs.canWrite
    ensures o.Written? ==> o == Written(outputPath, ComposeContent(p, LookupIds(passwd, groups, p.userName)))
  {
    WriteCompose(outputPath, ComposeContent(p, LookupIds(passwd, groups, p.userName)), fs)
  }

  // ---------------------------------------------------------------------------
  // The command line

  const DefaultHostPort := 8443
  const DefaultContainerPort := 8443
  const DefaultProjectsSubdir := "projects"
  const DefaultConfigSubdir := "config"

  /**
   * The parsed command line: `--output` and `--user` are required, the other
   * options may be omitted, and `--use-docker-socket` is a flag.
   */
  datatype CommandLine = CommandLine(
    output: string,
    user: string,
    hostPort: Option<int>,
    containerPort: Option<int>,
    projectsSubdir: Option<string>,
    configSubdir: Option<string>,
    useDockerSocket: bool)

  /** The parameters passed on, with the defaults standing in for omitted options. */
  function ParamsOf(cl: CommandLine): (p: Params)
    ensures p.hostPort == (if cl.hostPort.Some? then cl.hostPort.value else 8443)
    ensures p.containerPort == (if cl.containerPort.Some? then cl.containerPort.value else 8443)
    ensures p.projectsSubdir == (if cl.projectsSubdir.Some? then cl.projectsSubdir.value else "projects")
    ensures p.configSubdir == (if cl.configSubdir.Some? then cl.configSubdir.value else "config")
    ensures p.userName == cl.user && p.useDockerSocket == cl.useDockerSocket
  {
    Params(
      cl.hostPort.GetOr(DefaultHostPort),
      cl.containerPort.GetOr(DefaultContainerPort),
      cl.user,
      cl.projectsSubdir.GetOr(DefaultProjectsSubdir),
      cl.configSubdir.GetOr(DefaultConfigSubdir),
      cl.useDockerSocket)
  }

  /** The program run on a parsed command line. */
  function Run(cl: CommandLine, passwd: UserDb, groups: GroupDb, fs: FileSystem): Outcome {
    GenerateComposeYaml(cl.output, ParamsOf(cl), passwd, groups, fs)
  }

  /** The program run with the corrected write step. */
  function RunCorrected(cl: CommandLine, passwd: UserDb, groups: GroupDb, fs: FileSystem): Outcome {
    GenerateComposeYamlCorrected(cl.output, ParamsOf(cl), passwd, groups, fs)
  }
}

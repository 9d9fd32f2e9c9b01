/**
 * What the program promises about its run: the exit status, the
 * bare-file-name case of the directory creation and how the corrected write
 * step differs, that a failed user lookup does not stop the file from being
 * written, and the defaults of the command line.
 */
module RunProperties {
  import opened Wrappers
  import opened Decimal
  import opened Text
  import opened Layout
  import opened Compose
  import opened ComposeProperties

  // ---------------------------------------------------------------------------
  // The write step

  /** As written, a bare file name always ends the program with status 1. */
  lemma BareFileNameFailsAsWritten(outputPath: string, content: string, fs: FileSystem)
    requires '/' !in outputPath
    ensures WriteComposeAsWritten(outputPath, content, fs) == Failed
    ensures ExitStatus(WriteComposeAsWritten(outputPath, content, fs)) == 1
  {
  }

  /** The default name in the current directory, on a filesystem where every step succeeds. */
  lemma BareFileNameCounterexample(content: string)
    ensures WriteComposeAsWritten("docker-compose.yml", content, FileSystem(true, true)) == Failed
    ensures WriteCompose("docker-compose.yml", content, FileSystem(true, true)) == Written("docker-compose.yml", content)
  {
    assert '/' !in "docker-compose.yml";
  }

  // ---------------------------------------------------------------------------
  // Generation

  /**
   * Whether the file is written does not depend on the user and group
   * databases: a failed lookup does not stop the generation.
   */
  lemma LookupFailureDoesNotAbort(
    outputPath: string, p: Params, passwd: UserDb, groups: GroupDb, passwd': UserDb, groups': GroupDb,
    fs: FileSystem)
    ensures GenerateComposeYaml(outputPath, p, passwd, groups, fs).Written?
      == GenerateComposeYaml(outputPath, p, passwd', groups', fs).Written?
  {
  }

  /**
   * The written file's user line: the passwd uid and the group gid of the user
   * when both are found, the commented placeholder when either is missing.
   */
  lemma WrittenUserLine(outputPath: string, p: Params, passwd: UserDb, groups: GroupDb, fs: FileSystem)
    requires SingleLineDirs(p)
    ensures var o := GenerateComposeYaml(outputPath, p, passwd, groups, fs);
      o.Written? ==>
        var ls := Lines(o.content);
        && |ls| == LineCount && |ls[UserLine]| >= 4
        && (p.userName in passwd && p.userName in groups ==>
              ParseUserDirective(ls[UserLine][4..]) == Some((passwd[p.userName], groups[p.userName])))
        && (!(p.userName in passwd && p.userName in groups) ==> ls[UserLine] == "    " + UserPlaceholder())
  {
    var ids := LookupIds(passwd, groups, p.userName);
    UserLineReadsBack(p, ids);
    LookupDirective(passwd, groups, p.userName);
  }

  // ---------------------------------------------------------------------------
  // The command line

  lemma DefaultPortNumeral()
    ensures IntToString(8443) == "8443"
  {
    assert NatToString(8) == "8";
    assert NatToString(84) == NatToString(8) + [DigitChar(4)];
    assert NatToString(844) == NatToString(84) + [DigitChar(4)];
    assert NatToString(8443) == NatToString(844) + [DigitChar(3)];
  }

  lemma DefaultPortMapping()
    ensures PortMapping(8443, 8443) == "\"8443:8443\""
  {
    DefaultPortNumeral();
  }

  lemma DefaultVolumeNames()
    ensures ConfigVolume("config") == "./config" + ":/home/coder/.config "
    ensures LocalShareVolume("config") == "./config/local-share" + ":/home/coder/.local/share/code-server"
    ensures ProjectsVolume("projects") == "./projects" + ":/home/coder/projects"
  {
  }

  /** With both port options omitted, `ports:` lists the single mapping "8443:8443". */
  lemma DefaultPorts(cl: CommandLine, ids: Option<Ids>)
    requires cl.hostPort.None? && cl.containerPort.None?
    ensures SectionEntries(ComposeLines(ParamsOf(cl), ids), PortsKey()) == ["\"8443:8443\""]
  {
    PortsSection(ParamsOf(cl), ids);
    DefaultPortMapping();
  }

  /**
   * With both subdirectory options and the socket flag omitted, `volumes:`
   * lists ./config, ./config/local-share and ./projects, and no socket.
   */
  lemma DefaultVolumes(cl: CommandLine, ids: Option<Ids>)
    requires cl.projectsSubdir.None? && cl.configSubdir.None? && !cl.useDockerSocket
    ensures SectionEntries(ComposeLines(ParamsOf(cl), ids), VolumesKey())
      == [ "./config" + ":/home/coder/.config ",
           "./config/local-share" + ":/home/coder/.local/share/code-server",
           "./projects" + ":/home/coder/projects" ]
  {
    VolumesSection(ParamsOf(cl), ids);
    DefaultVolumeNames();
  }

  /**
   * The program's exit status: 0 exactly when the output path has a directory
   * part that can be created and the file can be written, 1 otherwise; the
   * user and group databases play no part.
   */
  lemma RunExitStatus(cl: CommandLine, passwd: UserDb, groups: GroupDb, fs: FileSystem)
    ensures ExitStatus(Run(cl, passwd, groups, fs)) == 0 <==> '/' in cl.output && fs.canMakeDirs && fs.canWrite
    ensures ExitStatus(Run(cl, passwd, groups, fs)) != 0 ==> ExitStatus(Run(cl, passwd, groups, fs)) == 1
  {
  }

  /**
   * The corrected write step differs from the one as written only for a bare
   * file name, where the written one always fails.
   */
  lemma WriteStepsAgree(outputPath: string, content: string, fs: FileSystem)
    ensures '/' in outputPath ==> WriteCompose(outputPath, content, fs) == WriteComposeAsWritten(outputPath, content, fs)
    ensures '/' !in outputPath ==>
      && WriteComposeAsWritten(outputPath, content, fs) == Failed
      && (WriteCompose(outputPath, content, fs).Written? <==> fs.canWrite)
  {
  }

  /**
   * The corrected run differs from the program only for a bare file name, and
   * there it writes the same text whenever the file can be written.
   */
  lemma RunCorrectedOnlyChangesBareNames(cl: CommandLine, passwd: UserDb, groups: GroupDb, fs: FileSystem)
    ensures '/' in cl.output ==> RunCorrected(cl, passwd, groups, fs) == Run(cl, passwd, groups, fs)
    ensures '/' !in cl.output ==>
      && Run(cl, passwd, groups, fs) == Failed
      && (RunCorrected(cl, passwd, groups, fs).Written? <==> fs.canWrite)
  {
    var content := ComposeContent(ParamsOf(cl), LookupIds(passwd, groups, cl.user));
    WriteStepsAgree(cl.output, content, fs);
  }

  /** The corrected run's exit status: only the write may fail for a bare file name. */
  lemma RunCorrectedExitStatus(cl: CommandLine, passwd: UserDb, groups: GroupDb, fs: FileSystem)
    ensures ExitStatus(RunCorrected(cl, passwd, groups, fs)) == 0 <==> ('/' !in cl.output || fs.canMakeDirs) && fs.canWrite
  {
  }
}

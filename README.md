# A verified model of the coder-vps-setup compose generator

`generate_compose.py` writes the `docker-compose.yml` for a code-server
container. It takes these inputs:

- host and container ports
- a user name
- the projects and config subdirectories
- a docker-socket flag
- an output path

It looks up the user's uid and the gid of the same-named group. It fills a
fixed template with these values and writes the text to the output path. A
write failure ends the program with status 1.

This project models that script as pure Dafny functions and proves what its
output contains.

- `wrappers.dfy` (`Wrappers`): the `Option` type.
- `decimal.dfy` (`Decimal`): decimal numerals of naturals and of Python ints (with a minus
  sign), their parsers, and the round trips.
- `text.dfy` (`Text`): string searching, splitting and unwrapping. A text is seen as lines:
  `Unlines` joins lines, each followed by a newline, and `Lines` splits them again.
  The two are inverse on newline-free lines.
- `layout.dfy` (`Layout`): how a compose list is read back from lines.
  - A key line is followed by entries indented by six spaces and introduced by `- `.
  - Comment lines at that indentation are skipped.
  - The first shallower line ends the list.
  - `SectionEntries(lines, key)` is the list under the first occurrence of `key`.
- `compose.dfy` (`Compose`): the generator itself.
  - `LookupIds` does the user and group lookups, over the host databases given
    as maps.
  - `UserDirective` picks the `user:` setting or the commented placeholder.
  - `ComposeLines`/`ComposeContent` build the template: 31 lines, where line
    k is source line 24 + k.
  - The write step has an abstract filesystem. It comes in two versions, as
    written and corrected; see Findings. `GenerateComposeYaml` and `Run` are
    the program as written. `GenerateComposeYamlCorrected` and `RunCorrected`
    use the corrected write step.
  - `ParamsOf` applies the command-line defaults.
- `compose_properties.dfy` (`ComposeProperties`):
  - where each parameter lands and what it reads back as
  - the three lists under `environment:`, `volumes:` and `ports:`
  - which lines each input can change
  - the same facts read from the written text
- `run_properties.dfy` (`RunProperties`):
  - the exit status
  - the bare-file-name finding, and how the corrected run differs
  - a failed lookup does not stop the file from being written
  - the command-line defaults

The template's line 37 ends with a space after `.config`. The model keeps it
in `ConfigVolume`.

Text-level claims split the written text back into lines, so they require
`SingleLineDirs`: the two subdirectory names hold no newline. The source does
no escaping. A name with a newline would add lines, and positions would then
shift.

## Model

| member | source | states |
|---|---|---|
| Compose.LookupIds | generate_compose.py:13-17 | The outcome holds ids exactly when both the passwd entry and the same-named group exist. They are that entry's uid and that group's gid. |
| Compose.UserDirective | generate_compose.py:13-20 | The directive is one line. It starts with `#` exactly when a lookup failed. Otherwise it starts with `user: "`. |
| ComposeProperties.UserDirectiveRoundTrip | generate_compose.py:16-20 | Parsing the directive gives back the lookup outcome: the uid and gid of an active directive, and nothing for the placeholder. |
| ComposeProperties.LookupDirective | generate_compose.py:13-20 | When both lookups succeed, the directive reads back as (passwd uid, group gid). The directive is the commented placeholder exactly when either lookup fails. |
| Decimal.NatToString | generate_compose.py:16 | A uid or gid is printed as at least one digit. It has a leading zero only for 0, and one digit exactly below 10. |
| Decimal.ParseNatOfNatToString | generate_compose.py:16 | Reading a natural's numeral gives back the natural. |
| Decimal.NatToStringInjective | generate_compose.py:16 | Distinct naturals have distinct numerals. |
| Decimal.IntToString | generate_compose.py:46 | A port's numeral starts with `-` exactly when the port is negative. Digits follow. |
| Decimal.IntToStringRoundTrip | generate_compose.py:46 | Reading a port's numeral gives back the port. |
| ComposeProperties.PortMappingRoundTrip | generate_compose.py:46 | The quoted mapping that `Compose.PortMapping` prints reads back as (host port, container port), in that order. |
| Text.LinesOfUnlines | generate_compose.py:24-55 | Splitting text made of newline-free lines gives back exactly those lines. |
| Text.UnlinesOfLines | generate_compose.py:24-55 | Rejoining the lines of a newline-terminated text gives back the text. |
| Compose.ComposeLines | generate_compose.py:24-55 | The template has 31 lines. |
| ComposeProperties.AllLinesSingle | generate_compose.py:24-55 | No template line holds a newline, given subdirectory names without one. |
| ComposeProperties.ContentLines | generate_compose.py:24-55 | The lines of the written text, `Compose.ComposeContent`, are exactly the template's lines. |
| Layout.SectionOfBlock | generate_compose.py:30-46 | A key found nowhere before lists the entries among the nested lines after it, up to the first shallower line. |
| ComposeProperties.EnvironmentSection | generate_compose.py:30-34 | `environment:` lists exactly `TZ=Etc/UTC`. The password settings are only comments. |
| ComposeProperties.VolumesSection | generate_compose.py:35-43 | `volumes:` lists the config mapping, the local-share mapping and the projects mapping, in this order. The socket mount follows exactly when the flag is set. |
| ComposeProperties.PortsSection | generate_compose.py:44-46 | `ports:` lists exactly one mapping, which reads back as (host port, container port). |
| ComposeProperties.ContentSections | generate_compose.py:30-46 | The three lists are the same when read from the written text. |
| ComposeProperties.SocketMountListedIff | generate_compose.py:42-43 | The docker socket is among the volumes exactly when the flag is set. |
| ComposeProperties.SocketLineShape | generate_compose.py:43 | The socket line, `Compose.SocketLine`, is an entry exactly when the flag is set, and then its value is the socket mount. Otherwise it is the same entry behind `# `. |
| ComposeProperties.SocketLineText | generate_compose.py:43 | Line 19 of the written text is the active socket entry exactly when the flag is set. Otherwise it is the commented one. |
| ComposeProperties.VariableLinesAt | generate_compose.py:37-49 | Lines 13, 15, 17, 19, 22 and 25 hold the three volume entries, the socket line, the port entry and the user directive. |
| ComposeProperties.OnlyVariableLinesDiffer | generate_compose.py:24-55 | Any two outputs differ at most on those six lines. Each such line holds its own inputs' entry. |
| ComposeProperties.FixedLines | generate_compose.py:24-55 | Every other line is the same for all parameters and lookup outcomes. |
| ComposeProperties.SocketFlagOnlyChangesSocketLine | generate_compose.py:43 | Changing the socket flag changes the socket line and nothing else. |
| ComposeProperties.LookupOnlyChangesUserLine | generate_compose.py:49 | Changing the lookup outcome changes the user line and nothing else. |
| ComposeProperties.UserLineReadsBack | generate_compose.py:48-49 | Line 25 of the written text is the directive indented by four spaces. It reads back as the lookup outcome. |
| ComposeProperties.FixedSettings | generate_compose.py:24-55 | The written text always contains the image line, the container name, the command, the restart policy and the network name. |
| Compose.ExitStatus | generate_compose.py:58-66 | The status is 0 exactly when the file is written. A failure gives 1. |
| Compose.Dirname | generate_compose.py:60 | The directory part is a prefix of the path. It is empty exactly when the path has no `/`. |
| Compose.WriteComposeAsWritten | generate_compose.py:58-66 | As written, the file is written exactly when the path has a `/`, the directory can be created and the file can be written. What is written is the given text at the given path. |
| RunProperties.BareFileNameFailsAsWritten | generate_compose.py:60 | As written, a path without `/` always fails with status 1. |
| RunProperties.BareFileNameCounterexample | generate_compose.py:60 | For `docker-compose.yml` on a filesystem where every step succeeds, the as-written step fails while the corrected one writes the file. |
| Compose.WriteCompose | generate_compose.py:58-66 | Corrected: the file is written exactly when the path has no `/` or the directory can be created, and the file can be written. A bare file name then needs only the write. |
| Compose.GenerateComposeYaml | generate_compose.py:9-66 | The file is written exactly when the path has a `/`, the directory can be created and the file can be written. The user and group databases play no part in that. The written text is the template filled with the parameters and the lookup outcome. |
| Compose.GenerateComposeYamlCorrected | generate_compose.py:9-66 | The same with the corrected write step: a bare file name needs only the write. |
| RunProperties.LookupFailureDoesNotAbort | generate_compose.py:17-20 | Whether the file is written is the same for any two pairs of user and group databases. |
| RunProperties.WrittenUserLine | generate_compose.py:13-20 | In the written file, line 25 reads back as the passwd uid and group gid when both are found. Otherwise it is the commented placeholder. |
| Compose.ParamsOf | generate_compose.py:71-76 | Omitted ports are 8443. Omitted subdirectories are `projects` and `config`. Given values, the user and the flag pass through unchanged. |
| RunProperties.DefaultPorts | generate_compose.py:71-72 | With both port options omitted, `ports:` lists only `"8443:8443"`. |
| RunProperties.DefaultVolumes | generate_compose.py:74-76 | With the subdirectory options and the flag omitted, `volumes:` lists `./config`, `./config/local-share` and `./projects`, with no socket. |
| RunProperties.RunExitStatus | generate_compose.py:80-88 | A run of the program exits with 0 exactly when the output path has a `/`, its directory can be created and the file can be written. It exits with 1 otherwise, whatever the databases hold. |
| RunProperties.WriteStepsAgree | generate_compose.py:60 | The corrected write step gives the same outcome as the one as written for a path with a `/`. For a bare file name the one as written fails, while the corrected one writes exactly when the file can be written. |
| RunProperties.RunCorrectedOnlyChangesBareNames | generate_compose.py:60 | The same comparison for whole runs: the corrected run and the program agree on a path with a `/`, and only the corrected run can write a bare file name. |
| RunProperties.RunCorrectedExitStatus | generate_compose.py:60 | The corrected run exits with 0 exactly when the path has no `/` or its directory can be created, and the file can be written. |

## Left out

- The warning and info messages on stdout and stderr (generate_compose.py:18-19, 63, 65) are left out. They do not affect the file or the status.
- `pwd.getpwnam` and `grp.getgrnam` are operating-system calls. They are modelled as lookups in maps from names to ids. The order of the two calls cannot be observed, apart from the warning.
- The argparse parsing itself is left out: `type=int` conversion, required options and usage errors. `CommandLine` is the already-parsed command line, and only the defaults are modelled.
- The filesystem is two booleans: whether `os.makedirs` of a non-empty path succeeds, and whether the open and write succeed. Partial writes, permissions, and exceptions other than `OSError` are not modelled.
- `Compose.Dirname` models `os.path.dirname` on POSIX paths only.
- Ports are unbounded ints. Negative ports are printed with a minus sign. The generator does no range check. The range check of the interactive installer is not part of this model.
- Decimal.IntToString: prints an int of any size. CPython 3.11 and later refuse to convert an int of more than 4300 digits to text, so the f-string at generate_compose.py:46 would raise `ValueError`, and the program would end with a traceback and no file. The model has no such limit, because the limit depends on the interpreter version and setting, and no command-line value in a real run comes near it.
- Compose.LookupIds: a user name holding a NUL character makes `pwd.getpwnam` raise `ValueError`. Line 17 catches only `KeyError`, so the program ends with a traceback, status 1 and no file. The model treats such a name as not found, gives the placeholder and writes the file. A name from the command line cannot hold a NUL, so the case arises only when `generate_compose_yaml` is called directly.
- The model makes no claim that the output is valid YAML. Subdirectory and user names are not escaped.
- ComposeProperties.ContentLines: like every text-level claim, it requires subdirectory names without a newline, because the source inserts them unescaped.
- The provisioning shell scripts are not part of this model.

## Findings

| source | as written | input that shows it | evidently intended | confidence | as-written member | corrected member |
|---|---|---|---|---|---|---|
| generate_compose.py:60 | The directory part of the output path is always created. For a bare file name that part is `""`, and `os.makedirs("")` raises `FileNotFoundError`, which is an `OSError` and so caught as `IOError`. The program then exits with status 1 before writing. | `--output docker-compose.yml` (no directory part), with a writable current directory | Skip the directory creation when the directory part is empty, and write the file in the current directory | not executed | RunProperties.BareFileNameCounterexample | Compose.WriteCompose |

The as-written step is `Compose.WriteComposeAsWritten`, which
`Compose.GenerateComposeYaml` and `Compose.Run` use. `Compose.WriteCompose` is
the corrected version, which `Compose.GenerateComposeYamlCorrected` and
`Compose.RunCorrected` use.

/**
 * What the generator promises about the compose file: which line holds each
 * parameter and what it reads back as, which lines are fixed, which line each
 * input alone can change, and the lists under `volumes:`, `ports:` and
 * `environment:`.
 */
module ComposeProperties {
  import opened Wrappers
  import opened Decimal
  import opened Text
  import opened Layout
  import opened Compose

  // ---------------------------------------------------------------------------
  // The user directive

  /** Two numerals joined by a colon split back into the numbers. */
  lemma NatPairRoundTrip(uid: nat, gid: nat)
    ensures SplitAtFirst(NatToString(uid) + [':'] + NatToString(gid), ':') == Some((NatToString(uid), NatToString(gid)))
    ensures ParseNat(NatToString(uid)) == uid && ParseNat(NatToString(gid)) == gid
  {
    NatNumeralHasNoSeparator(uid, ':');
    SplitAtFirstOf(NatToString(uid), ':', NatToString(gid));
    ParseNatOfNatToString(uid);
    ParseNatOfNatToString(gid);
  }

  lemma ActiveDirectiveRoundTrip(uid: nat, gid: nat)
    ensures ParseUserDirective(UserKey() + NatToString(uid) + ":" + NatToString(gid) + "\"") == Some((uid, gid))
  {
    var inner := NatToString(uid) + [':'] + NatToString(gid);
    RegroupMiddle(UserKey(), NatToString(uid), ":", NatToString(gid), "\"");
    UnwrapOf(UserKey(), inner, '"');
    NatPairRoundTrip(uid, gid);
  }

  /** An active directive reads back as the ids it was made from; the placeholder as none. */
  lemma UserDirectiveRoundTrip(ids: Option<Ids>)
    ensures ParseUserDirective(UserDirective(ids)) == ids
  {
    match ids
    case None =>
      assert UserPlaceholder()[0] == '#';
    case Some((uid, gid)) =>
      ActiveDirectiveRoundTrip(uid, gid);
  }

  /**
   * Both lookups succeed: the directive activates and carries the passwd
   * entry's uid and the same-named group's gid.  Either fails: the directive
   * is the commented placeholder.
   */
  lemma LookupDirective(passwd: UserDb, groups: GroupDb, userName: string)
    ensures var d := UserDirective(LookupIds(passwd, groups, userName));
      (userName in passwd && userName in groups ==>
         ParseUserDirective(d) == Some((passwd[userName], groups[userName])))
      && (d == UserPlaceholder() <==> !(userName in passwd && userName in groups))
  {
    var ids := LookupIds(passwd, groups, userName);
    UserDirectiveRoundTrip(ids);
    assert UserPlaceholder()[0] == '#';
  }

  // ---------------------------------------------------------------------------
  // The port mapping

  /** The quoted mapping reads back as the host port first, then the container port. */
  lemma IntPairRoundTrip(hostPort: int, containerPort: int)
    ensures SplitAtFirst(IntToString(hostPort) + [':'] + IntToString(containerPort), ':')
      == Some((IntToString(hostPort), IntToString(containerPort)))
    ensures ParseInt(IntToString(hostPort)) == Some(hostPort) && ParseInt(IntToString(containerPort)) == Some(containerPort)
  {
    NumeralHasNoSeparator(hostPort, ':');
    SplitAtFirstOf(IntToString(hostPort), ':', IntToString(containerPort));
    IntToStringRoundTrip(hostPort);
    IntToStringRoundTrip(containerPort);
  }

  lemma PortMappingRoundTrip(hostPort: int, containerPort: int)
    ensures ParsePortMapping(PortMapping(hostPort, containerPort)) == Some((hostPort, containerPort))
  {
    var inner := IntToString(hostPort) + [':'] + IntToString(containerPort);
    RegroupMiddle("\"", IntToString(hostPort), ":", IntToString(containerPort), "\"");
    UnwrapOf("\"", inner, '"');
    IntPairRoundTrip(hostPort, containerPort);
  }

  // ---------------------------------------------------------------------------
  // From lines to text

  /** The subdirectory names hold no newline, so each entry stays on its line. */
  predicate SingleLineDirs(p: Params) {
    OneLine(p.configSubdir) && OneLine(p.projectsSubdir)
  }

  // The fixed texts hold no newline.

  lemma PasswordsNoteOneLine()
    ensures OneLine(PasswordsNote())
  {
  }

  lemma PasswordNoteOneLine()
    ensures OneLine(PasswordNote())
  {
  }

  lemma SudoPasswordNoteOneLine()
    ensures OneLine(SudoPasswordNote())
  {
  }

  lemma ConfigNotesOneLine()
    ensures OneLine(ConfigNote()) && OneLine(LocalShareNote())
  {
  }

  lemma ProjectsNoteOneLine()
    ensures OneLine(ProjectsNote())
  {
  }

  lemma SocketTextsOneLine()
    ensures OneLine(SocketNote()) && OneLine(SocketMount())
  {
  }

  lemma ImageLineOneLine()
    ensures OneLine(ImageLine())
  {
  }

  lemma UserNoteOneLine()
    ensures OneLine(UserNote())
  {
  }

  lemma PortNoteOneLine()
    ensures OneLine(PortNote())
  {
  }

  // Each part of the file holds no newline within a line.

  lemma HeaderOneLine()
    ensures AllOneLine(HeaderBlock())
  {
    ImageLineOneLine();
  }

  lemma EnvironmentListOneLine()
    ensures AllOneLine(EnvironmentList())
  {
    PasswordsNoteOneLine();
    PasswordNoteOneLine();
    SudoPasswordNoteOneLine();
  }

  lemma VolumesListOneLine(p: Params)
    requires SingleLineDirs(p)
    ensures AllOneLine(VolumesList(p))
  {
    ConfigNotesOneLine();
    ProjectsNoteOneLine();
    SocketTextsOneLine();
  }

  lemma PortsListOneLine(p: Params)
    ensures AllOneLine(PortsList(p))
  {
    PortNoteOneLine();
    NumeralHasNoSeparator(p.hostPort, '\n');
    NumeralHasNoSeparator(p.containerPort, '\n');
  }

  lemma RestartUserOneLine(ids: Option<Ids>)
    ensures AllOneLine(RestartUserBlock(ids))
  {
    UserNoteOneLine();
  }

  lemma NetworksOneLine()
    ensures AllOneLine(NetworksBlock())
  {
  }

  lemma KeysOneLine()
    ensures AllOneLine([EnvironmentKey()]) && AllOneLine([VolumesKey()]) && AllOneLine([PortsKey()])
  {
  }

  lemma AllLinesSingle(p: Params, ids: Option<Ids>)
    requires SingleLineDirs(p)
    ensures AllOneLine(ComposeLines(p, ids))
  {
    HeaderOneLine();
    EnvironmentListOneLine();
    VolumesListOneLine(p);
    PortsListOneLine(p);
    RestartUserOneLine(ids);
    NetworksOneLine();
    KeysOneLine();
  }

  /** The lines of the written text are exactly the template's lines. */
  lemma ContentLines(p: Params, ids: Option<Ids>)
    requires SingleLineDirs(p)
    ensures Lines(ComposeContent(p, ids)) == ComposeLines(p, ids)
  {
    AllLinesSingle(p, ids);
    LinesOfUnlines(ComposeLines(p, ids));
  }

  // ---------------------------------------------------------------------------
  // The lists under environment:, volumes: and ports:

  lemma KeysNotNested()
    ensures !IsNested(EnvironmentKey()) && !IsNested(VolumesKey()) && !IsNested(PortsKey())
  {
  }

  lemma HeaderHasNoKey()
    ensures EnvironmentKey() !in HeaderBlock()
    ensures VolumesKey() !in HeaderBlock()
    ensures PortsKey() !in HeaderBlock()
  {
  }

  lemma EnvironmentListNested()
    ensures forall l | l in EnvironmentList() :: IsNested(l)
    ensures VolumesKey() !in EnvironmentList() && PortsKey() !in EnvironmentList()
  {
    KeysNotNested();
  }

  lemma VolumesListNested(p: Params)
    ensures forall l | l in VolumesList(p) :: IsNested(l)
    ensures PortsKey() !in VolumesList(p)
  {
    KeysNotNested();
  }

  lemma PortsListNested(p: Params)
    ensures forall l | l in PortsList(p) :: IsNested(l)
  {
  }

  lemma RestartNotNested(ids: Option<Ids>)
    ensures !IsNested(RestartUserBlock(ids)[0])
  {
  }

  /** The file's nine parts, grouped around each of the three list keys. */
  lemma Regroup<T>(h: seq<T>, ek: seq<T>, el: seq<T>, vk: seq<T>, vl: seq<T>, pk: seq<T>, pl: seq<T>, r: seq<T>, n: seq<T>)
    ensures var all := h + ek + el + vk + vl + pk + pl + r + n;
      && all == h + ek + el + (vk + vl + pk + pl + r + n)
      && all == (h + ek + el) + vk + vl + (pk + pl + r + n)
      && all == (h + ek + el + vk + vl) + pk + pl + (r + n)
      && all == (h + ek + el + vk) + vl + (pk + pl + r + n)
      && all == (h + ek + el + vk + vl + pk) + pl + (r + n)
      && all == (h + ek + el + vk + vl + pk + pl) + r + n
  {
  }

  /** Replacing an element of the middle part replaces the element at its offset in the whole. */
  lemma UpdateMiddle<T>(a: seq<T>, m: seq<T>, c: seq<T>, j: nat, x: T)
    requires j < |m|
    ensures (a + m + c)[|a| + j := x] == a + m[j := x] + c
  {
  }

  // The entries among the nested lines, worked out on the lines' shapes
  // rather than on their text.

  lemma ValuesOfNoteItem(n: string, v: string, rest: seq<string>)
    ensures ItemValues([Note(n), Item(v)] + rest) == [v] + ItemValues(rest)
  {
    assert [Note(n), Item(v)] + rest == [Note(n)] + ([Item(v)] + rest);
    ItemValuesNote(n, [Item(v)] + rest);
    ItemValuesItem(v, rest);
  }

  lemma PairUp<T>(x0: T, x1: T, x2: T, x3: T, x4: T, x5: T, x6: T, x7: T)
    ensures [x0, x1, x2, x3, x4, x5, x6, x7] == [x0, x1] + ([x2, x3] + ([x4, x5] + ([x6] + [x7])))
  {
  }

  lemma ConsThree<T>(y0: T, y1: T, y2: T, rest: seq<T>)
    ensures [y0] + ([y1] + ([y2] + rest)) == [y0, y1, y2] + rest
  {
  }

  lemma ValuesOfCommentedItems(n1: string, v1: string, n2: string, v2: string, n3: string, v3: string,
                               n4: string, last: string)
    ensures ItemValues([Note(n1), Item(v1), Note(n2), Item(v2), Note(n3), Item(v3), Note(n4), last])
      == [v1, v2, v3] + ItemValues([last])
  {
    var t := [Note(n4)] + [last];
    var s := [Note(n3), Item(v3)] + t;
    var r := [Note(n2), Item(v2)] + s;
    PairUp(Note(n1), Item(v1), Note(n2), Item(v2), Note(n3), Item(v3), Note(n4), last);
    ValuesOfNoteItem(n1, v1, r);
    ValuesOfNoteItem(n2, v2, s);
    ValuesOfNoteItem(n3, v3, t);
    ItemValuesNote(n4, [last]);
    ConsThree(v1, v2, v3, ItemValues([last]));
  }

  lemma ValuesOfOneItemAfterComments(n1: string, n2: string, n3: string, v: string)
    ensures ItemValues([Note(n1), Note(n2), Note(n3), Item(v)]) == [v]
  {
    assert [Note(n1), Note(n2), Note(n3), Item(v)] == [Note(n1)] + ([Note(n2)] + ([Note(n3)] + ([Item(v)] + [])));
    ItemValuesItem(v, []);
    ItemValuesNote(n3, [Item(v)] + []);
    ItemValuesNote(n2, [Note(n3)] + ([Item(v)] + []));
    ItemValuesNote(n1, [Note(n2)] + ([Note(n3)] + ([Item(v)] + [])));
  }

  lemma ValuesOfCommentedItem(n: string, v: string)
    ensures ItemValues([Note(n), Item(v)]) == [v]
  {
    assert [Note(n), Item(v)] == [Note(n)] + ([Item(v)] + []);
    ItemValuesItem(v, []);
    ItemValuesNote(n, [Item(v)] + []);
  }

  lemma ValuesOfSocketLine(useDockerSocket: bool)
    ensures ItemValues([SocketLine(useDockerSocket)]) == if useDockerSocket then [SocketMount()] else []
  {
    assert [SocketLine(useDockerSocket)] == [SocketLine(useDockerSocket)] + [];
    ItemValuesCons(SocketLine(useDockerSocket), []);
  }

  lemma EnvironmentValues()
    ensures ItemValues(EnvironmentList()) == ["TZ=Etc/UTC"]
  {
    ValuesOfOneItemAfterComments(PasswordsNote(), PasswordNote(), SudoPasswordNote(), "TZ=Etc/UTC");
  }

  lemma VolumesValues(p: Params)
    ensures ItemValues(VolumesList(p))
      == [ConfigVolume(p.configSubdir), LocalShareVolume(p.configSubdir), ProjectsVolume(p.projectsSubdir)]
         + (if p.useDockerSocket then [SocketMount()] else [])
  {
    ValuesOfCommentedItems(ConfigNote(), ConfigVolume(p.configSubdir), LocalShareNote(),
      LocalShareVolume(p.configSubdir), ProjectsNote(), ProjectsVolume(p.projectsSubdir),
      SocketNote(), SocketLine(p.useDockerSocket));
    ValuesOfSocketLine(p.useDockerSocket);
  }

  lemma PortsValues(p: Params)
    ensures ItemValues(PortsList(p)) == [PortMapping(p.hostPort, p.containerPort)]
  {
    ValuesOfCommentedItem(PortNote(), PortMapping(p.hostPort, p.containerPort));
  }

  /** `environment:` lists one variable, the time zone; the password settings are comments. */
  lemma EnvironmentSection(p: Params, ids: Option<Ids>)
    ensures SectionEntries(ComposeLines(p, ids), EnvironmentKey()) == ["TZ=Etc/UTC"]
  {
    var post := [VolumesKey()] + VolumesList(p) + [PortsKey()] + PortsList(p)
      + RestartUserBlock(ids) + NetworksBlock();
    Regroup(HeaderBlock(), [EnvironmentKey()], EnvironmentList(), [VolumesKey()], VolumesList(p),
      [PortsKey()], PortsList(p), RestartUserBlock(ids), NetworksBlock());
    HeaderHasNoKey();
    EnvironmentListNested();
    KeysNotNested();
    SectionOfBlock(HeaderBlock(), EnvironmentKey(), EnvironmentList(), post);
    EnvironmentValues();
  }

  /**
   * `volumes:` lists the config mapping, the local-share mapping and the
   * projects mapping, in that order, then the docker socket when it is enabled.
   */
  lemma VolumesSection(p: Params, ids: Option<Ids>)
    ensures SectionEntries(ComposeLines(p, ids), VolumesKey())
      == [ConfigVolume(p.configSubdir), LocalShareVolume(p.configSubdir), ProjectsVolume(p.projectsSubdir)]
         + (if p.useDockerSocket then [SocketMount()] else [])
  {
    var pre := HeaderBlock() + [EnvironmentKey()] + EnvironmentList();
    var post := [PortsKey()] + PortsList(p) + RestartUserBlock(ids) + NetworksBlock();
    Regroup(HeaderBlock(), [EnvironmentKey()], EnvironmentList(), [VolumesKey()], VolumesList(p),
      [PortsKey()], PortsList(p), RestartUserBlock(ids), NetworksBlock());
    HeaderHasNoKey();
    EnvironmentListNested();
    VolumesListNested(p);
    KeysNotNested();
    assert VolumesKey() != EnvironmentKey();
    SectionOfBlock(pre, VolumesKey(), VolumesList(p), post);
    VolumesValues(p);
  }

  /** `ports:` lists exactly one mapping, reading back as the host port, then the container port. */
  lemma PortsSection(p: Params, ids: Option<Ids>)
    ensures var e := SectionEntries(ComposeLines(p, ids), PortsKey());
      && e == [PortMapping(p.hostPort, p.containerPort)]
      && ParsePortMapping(e[0]) == Some((p.hostPort, p.containerPort))
  {
    var pre := HeaderBlock() + [EnvironmentKey()] + EnvironmentList() + [VolumesKey()] + VolumesList(p);
    var post := RestartUserBlock(ids) + NetworksBlock();
    Regroup(HeaderBlock(), [EnvironmentKey()], EnvironmentList(), [VolumesKey()], VolumesList(p),
      [PortsKey()], PortsList(p), RestartUserBlock(ids), NetworksBlock());
    HeaderHasNoKey();
    EnvironmentListNested();
    VolumesListNested(p);
    PortsListNested(p);
    RestartNotNested(ids);
    assert PortsKey() != EnvironmentKey() && PortsKey() != VolumesKey();
    SectionOfBlock(pre, PortsKey(), PortsList(p), post);
    PortsValues(p);
    PortMappingRoundTrip(p.hostPort, p.containerPort);
  }

  // ---------------------------------------------------------------------------
  // What each input can change

  lemma UpdateOdd<T>(a0: T, a1: T, a2: T, a3: T, a4: T, a5: T, a6: T, a7: T, b1: T, b3: T, b5: T, b7: T)
    ensures [a0, a1, a2, a3, a4, a5, a6, a7][1 := b1][3 := b3][5 := b5][7 := b7]
      == [a0, b1, a2, b3, a4, b5, a6, b7]
  {
  }

  lemma UpdateLast<T>(a: seq<T>, x: T, y: T)
    ensures (a + [x])[|a| := y] == a + [y]
  {
  }

  lemma VolumesListHoles(p: Params, q: Params)
    ensures VolumesList(q) == VolumesList(p)
      [1 := Item(ConfigVolume(q.configSubdir))]
      [3 := Item(LocalShareVolume(q.configSubdir))]
      [5 := Item(ProjectsVolume(q.projectsSubdir))]
      [7 := SocketLine(q.useDockerSocket)]
  {
    UpdateOdd(Note(ConfigNote()), Item(ConfigVolume(p.configSubdir)), Note(LocalShareNote()),
      Item(LocalShareVolume(p.configSubdir)), Note(ProjectsNote()), Item(ProjectsVolume(p.projectsSubdir)),
      Note(SocketNote()), SocketLine(p.useDockerSocket),
      Item(ConfigVolume(q.configSubdir)), Item(LocalShareVolume(q.configSubdir)),
      Item(ProjectsVolume(q.projectsSubdir)), SocketLine(q.useDockerSocket));
  }

  lemma PortsListHole(p: Params, q: Params)
    ensures PortsList(q) == PortsList(p)[1 := Item(PortMapping(q.hostPort, q.containerPort))]
  {
    UpdateLast([Note(PortNote())], Item(PortMapping(p.hostPort, p.containerPort)),
      Item(PortMapping(q.hostPort, q.containerPort)));
  }

  lemma RestartUserHole(ids: Option<Ids>, jds: Option<Ids>)
    ensures RestartUserBlock(jds) == RestartUserBlock(ids)[2 := "    " + UserDirective(jds)]
  {
    UpdateLast(["    restart: unless-stopped", UserNote()], "    " + UserDirective(ids), "    " + UserDirective(jds));
  }

  /** The six holes of the file, placed by the lengths of its parts. */
  lemma HolesOfParts<T>(a: seq<T>, vl: seq<T>, pk: seq<T>, pl: seq<T>, r: seq<T>, n: seq<T>,
                        x1: T, x3: T, x5: T, x7: T, y: T, z: T)
    requires |a| == 12 && |vl| == 8 && |pk| == 1 && |pl| == 2 && |r| == 3
    ensures (a + vl + pk + pl + r + n)[13 := x1][15 := x3][17 := x5][19 := x7][22 := y][25 := z]
      == a + vl[1 := x1][3 := x3][5 := x5][7 := x7] + pk + pl[1 := y] + r[2 := z] + n
  {
    UpdateMiddle(a, vl, pk + pl + r + n, 1, x1);
    var v1 := vl[1 := x1];
    UpdateMiddle(a, v1, pk + pl + r + n, 3, x3);
    var v3 := v1[3 := x3];
    UpdateMiddle(a, v3, pk + pl + r + n, 5, x5);
    var v5 := v3[5 := x5];
    UpdateMiddle(a, v5, pk + pl + r + n, 7, x7);
    var v7 := v5[7 := x7];
    assert a + vl + pk + pl + r + n == a + vl + (pk + pl + r + n);
    assert a + v7 + (pk + pl + r + n) == (a + v7 + pk) + pl + (r + n);
    UpdateMiddle(a + v7 + pk, pl, r + n, 1, y);
    assert (a + v7 + pk) + pl[1 := y] + (r + n) == (a + v7 + pk + pl[1 := y]) + r + n;
    UpdateMiddle(a + v7 + pk + pl[1 := y], r, n, 2, z);
  }

  /**
   * Any two compose files differ at most on the six variable lines: each of
   * them holds the entry its own parameters or lookup give.
   */
  lemma OnlyVariableLinesDiffer(p: Params, ids: Option<Ids>, q: Params, jds: Option<Ids>)
    ensures var ls := ComposeLines(p, ids);
      |ls| == LineCount &&
      ComposeLines(q, jds) == ls
      [ConfigVolumeLine := Item(ConfigVolume(q.configSubdir))]
      [LocalShareVolumeLine := Item(LocalShareVolume(q.configSubdir))]
      [ProjectsVolumeLine := Item(ProjectsVolume(q.projectsSubdir))]
      [SocketLineIndex := SocketLine(q.useDockerSocket)]
      [PortLine := Item(PortMapping(q.hostPort, q.containerPort))]
      [UserLine := "    " + UserDirective(jds)]
  {
    HolesOfParts(HeaderBlock() + [EnvironmentKey()] + EnvironmentList() + [VolumesKey()],
      VolumesList(p), [PortsKey()], PortsList(p), RestartUserBlock(ids), NetworksBlock(),
      Item(ConfigVolume(q.configSubdir)), Item(LocalShareVolume(q.configSubdir)),
      Item(ProjectsVolume(q.projectsSubdir)), SocketLine(q.useDockerSocket),
      Item(PortMapping(q.hostPort, q.containerPort)), "    " + UserDirective(jds));
    VolumesListHoles(p, q);
    PortsListHole(p, q);
    RestartUserHole(ids, jds);
  }

  // The same facts on any sequence of 31 lines with the six holes, so that
  // they are drawn without looking into the lines' text.

  lemma HolesRead<T>(l: seq<T>, x1: T, x3: T, x5: T, x7: T, y: T, z: T)
    requires |l| == 31 && l == l[13 := x1][15 := x3][17 := x5][19 := x7][22 := y][25 := z]
    ensures l[13] == x1 && l[15] == x3 && l[17] == x5 && l[19] == x7 && l[22] == y && l[25] == z
  {
    assert l[13] == l[13 := x1][15 := x3][17 := x5][19 := x7][22 := y][25 := z][13];
    assert l[15] == l[13 := x1][15 := x3][17 := x5][19 := x7][22 := y][25 := z][15];
    assert l[17] == l[13 := x1][15 := x3][17 := x5][19 := x7][22 := y][25 := z][17];
    assert l[19] == l[13 := x1][15 := x3][17 := x5][19 := x7][22 := y][25 := z][19];
    assert l[22] == l[13 := x1][15 := x3][17 := x5][19 := x7][22 := y][25 := z][22];
  }

  lemma HolesOnly<T>(l: seq<T>, m: seq<T>, x1: T, x3: T, x5: T, x7: T, y: T, z: T)
    requires |l| == 31 && m == l[13 := x1][15 := x3][17 := x5][19 := x7][22 := y][25 := z]
    ensures forall k :: 0 <= k < 31 && !IsVariableLine(k) ==> l[k] == m[k]
  {
  }

  lemma KeepAllButSocket<T>(l: seq<T>, m: seq<T>, x1: T, x3: T, x5: T, x7: T, y: T, z: T, w: T)
    requires |l| == 31 && l == l[13 := x1][15 := x3][17 := x5][19 := x7][22 := y][25 := z]
    requires m == l[13 := x1][15 := x3][17 := x5][19 := w][22 := y][25 := z]
    ensures m == l[19 := w]
  {
    HolesRead(l, x1, x3, x5, x7, y, z);
  }

  lemma KeepAllButUser<T>(l: seq<T>, m: seq<T>, x1: T, x3: T, x5: T, x7: T, y: T, z: T, w: T)
    requires |l| == 31 && l == l[13 := x1][15 := x3][17 := x5][19 := x7][22 := y][25 := z]
    requires m == l[13 := x1][15 := x3][17 := x5][19 := x7][22 := y][25 := w]
    ensures m == l[25 := w]
  {
    HolesRead(l, x1, x3, x5, x7, y, z);
  }

  /** What each of the six variable lines holds. */
  lemma VariableLinesAt(p: Params, ids: Option<Ids>)
    ensures var ls := ComposeLines(p, ids);
      && ls[ConfigVolumeLine] == Item(ConfigVolume(p.configSubdir))
      && ls[LocalShareVolumeLine] == Item(LocalShareVolume(p.configSubdir))
      && ls[ProjectsVolumeLine] == Item(ProjectsVolume(p.projectsSubdir))
      && ls[SocketLineIndex] == SocketLine(p.useDockerSocket)
      && ls[PortLine] == Item(PortMapping(p.hostPort, p.containerPort))
      && ls[UserLine] == "    " + UserDirective(ids)
  {
    OnlyVariableLinesDiffer(p, ids, p, ids);
    HolesRead(ComposeLines(p, ids), Item(ConfigVolume(p.configSubdir)), Item(LocalShareVolume(p.configSubdir)),
      Item(ProjectsVolume(p.projectsSubdir)), SocketLine(p.useDockerSocket),
      Item(PortMapping(p.hostPort, p.containerPort)), "    " + UserDirective(ids));
  }

  /** Every line other than the six variable ones is the same whatever the parameters and the lookup. */
  lemma FixedLines(p: Params, ids: Option<Ids>, q: Params, jds: Option<Ids>)
    ensures var ls, ms := ComposeLines(p, ids), ComposeLines(q, jds);
      |ls| == LineCount && |ms| == LineCount &&
      forall k :: 0 <= k < LineCount && !IsVariableLine(k) ==> ls[k] == ms[k]
  {
    OnlyVariableLinesDiffer(p, ids, q, jds);
    HolesOnly(ComposeLines(p, ids), ComposeLines(q, jds), Item(ConfigVolume(q.configSubdir)),
      Item(LocalShareVolume(q.configSubdir)), Item(ProjectsVolume(q.projectsSubdir)),
      SocketLine(q.useDockerSocket), Item(PortMapping(q.hostPort, q.containerPort)), "    " + UserDirective(jds));
  }

  /** The socket flag changes the socket line and nothing else. */
  lemma SocketFlagOnlyChangesSocketLine(p: Params, ids: Option<Ids>, b: bool)
    ensures ComposeLines(p.(useDockerSocket := b), ids) == ComposeLines(p, ids)[SocketLineIndex := SocketLine(b)]
  {
    OnlyVariableLinesDiffer(p, ids, p, ids);
    OnlyVariableLinesDiffer(p, ids, p.(useDockerSocket := b), ids);
    KeepAllButSocket(ComposeLines(p, ids), ComposeLines(p.(useDockerSocket := b), ids),
      Item(ConfigVolume(p.configSubdir)), Item(LocalShareVolume(p.configSubdir)),
      Item(ProjectsVolume(p.projectsSubdir)), SocketLine(p.useDockerSocket),
      Item(PortMapping(p.hostPort, p.containerPort)), "    " + UserDirective(ids), SocketLine(b));
  }

  /** The lookup outcome changes the user line and nothing else. */
  lemma LookupOnlyChangesUserLine(p: Params, ids: Option<Ids>, jds: Option<Ids>)
    ensures ComposeLines(p, jds) == ComposeLines(p, ids)[UserLine := "    " + UserDirective(jds)]
  {
    OnlyVariableLinesDiffer(p, ids, p, ids);
    OnlyVariableLinesDiffer(p, ids, p, jds);
    KeepAllButUser(ComposeLines(p, ids), ComposeLines(p, jds),
      Item(ConfigVolume(p.configSubdir)), Item(LocalShareVolume(p.configSubdir)),
      Item(ProjectsVolume(p.projectsSubdir)), SocketLine(p.useDockerSocket),
      Item(PortMapping(p.hostPort, p.containerPort)), "    " + UserDirective(ids), "    " + UserDirective(jds));
  }

  // ---------------------------------------------------------------------------
  // The written text

  /** The user line of the text is the directive, which reads back as the lookup outcome. */
  lemma UserLineReadsBack(p: Params, ids: Option<Ids>)
    requires SingleLineDirs(p)
    ensures var ls := Lines(ComposeContent(p, ids));
      && |ls| == LineCount
      && ls[UserLine] == "    " + UserDirective(ids)
      && ParseUserDirective(ls[UserLine][4..]) == ids
  {
    ContentLines(p, ids);
    VariableLinesAt(p, ids);
    var l := "    " + UserDirective(ids);
    assert l[4..] == UserDirective(ids);
    UserDirectiveRoundTrip(ids);
  }

  lemma SocketLineShape(useDockerSocket: bool)
    ensures var l := SocketLine(useDockerSocket);
      && (IsItem(l) <==> useDockerSocket)
      && (useDockerSocket ==> ItemValue(l) == SocketMount())
      && (!useDockerSocket ==> l == ItemIndent + "# " + "- " + SocketMount())
  {
  }

  /**
   * The socket line of the text is an active entry mounting the docker socket
   * exactly when the flag is set, and the same mapping commented out otherwise.
   */
  lemma SocketLineText(p: Params, ids: Option<Ids>)
    requires SingleLineDirs(p)
    ensures var ls := Lines(ComposeContent(p, ids));
      && |ls| == LineCount
      && (IsItem(ls[SocketLineIndex]) <==> p.useDockerSocket)
      && (p.useDockerSocket ==> ItemValue(ls[SocketLineIndex]) == SocketMount())
      && (!p.useDockerSocket ==> ls[SocketLineIndex] == ItemIndent + "# " + "- " + SocketMount())
  {
    ContentLines(p, ids);
    VariableLinesAt(p, ids);
    SocketLineShape(p.useDockerSocket);
  }
  lemma ListedIff(a: string, b: string, c: string, m: string, use: bool)
    requires a != [] && b != [] && c != [] && m != []
    requires a[0] != m[0] && b[0] != m[0] && c[0] != m[0]
    ensures m in [a, b, c] + (if use then [m] else []) <==> use
  {
  }

  /** The three directory mappings are relative ("./..."), the socket mount absolute. */
  lemma VolumeStarts(p: Params)
    ensures ConfigVolume(p.configSubdir) != [] && ConfigVolume(p.configSubdir)[0] == '.'
    ensures LocalShareVolume(p.configSubdir) != [] && LocalShareVolume(p.configSubdir)[0] == '.'
    ensures ProjectsVolume(p.projectsSubdir) != [] && ProjectsVolume(p.projectsSubdir)[0] == '.'
    ensures SocketMount() != [] && SocketMount()[0] == '/'
  {
  }

  /** The socket mount is among the volumes exactly when the flag is set. */
  lemma SocketMountListedIff(p: Params, ids: Option<Ids>)
    ensures SocketMount() in SectionEntries(ComposeLines(p, ids), VolumesKey()) <==> p.useDockerSocket
  {
    VolumesSection(p, ids);
    VolumeStarts(p);
    ListedIff(ConfigVolume(p.configSubdir), LocalShareVolume(p.configSubdir), ProjectsVolume(p.projectsSubdir),
      SocketMount(), p.useDockerSocket);
  }

  /** The three lists, read from the written text. */
  lemma ContentSections(p: Params, ids: Option<Ids>)
    requires SingleLineDirs(p)
    ensures var ls := Lines(ComposeContent(p, ids));
      && SectionEntries(ls, EnvironmentKey()) == ["TZ=Etc/UTC"]
      && SectionEntries(ls, VolumesKey())
         == [ConfigVolume(p.configSubdir), LocalShareVolume(p.configSubdir), ProjectsVolume(p.projectsSubdir)]
            + (if p.useDockerSocket then [SocketMount()] else [])
      && SectionEntries(ls, PortsKey()) == [PortMapping(p.hostPort, p.containerPort)]
  {
    ContentLines(p, ids);
    EnvironmentSection(p, ids);
    VolumesSection(p, ids);
    PortsSection(p, ids);
  }

  /**
   * The fixed settings are in the text whatever the parameters: the image,
   * the container name, the command, the restart policy and the network name.
   */
  lemma FixedSettings(p: Params, ids: Option<Ids>)
    requires SingleLineDirs(p)
    ensures var c := ComposeContent(p, ids);
      && ContainsLine(c, ImageLine())
      && ContainsLine(c, "    container_name: code-server")
      && ContainsLine(c, "    command: [\"--cert\"]")
      && ContainsLine(c, "    restart: unless-stopped")
      && ContainsLine(c, "    name: code-server_network")
  {
    ContentLines(p, ids);
  }
}

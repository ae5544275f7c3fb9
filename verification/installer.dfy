/** The installer's decisions: merging the server entry into the settings
    file, reading the vault-path answer, and writing a project configuration. */
module Installer {
  import opened Results
  import opened Json
  import opened Text
  import opened Python
  import opened Template
  import opened Config
  import opened Clock
  import opened Note

  // ---------------------------------------------------------------------
  // Settings

  /** Why updating the settings raises instead of writing them. */
  datatype InstallError =
    | SettingsUnreadable    // an error other than a JSON decode error while reading
    | SettingsNotAnObject   // the file holds a list, text, number, boolean or null
    | ServersNotAnObject    // "mcpServers" holds something other than a dictionary

  const ServerKey := "obsidian-claude-code"

  /** The server entry the installer registers. */
  function ServerEntry(serverPath: string, vaultPath: string): Value {
    Object(map[
      "command" := String("python3"),
      "args" := Array([String(serverPath)]),
      "env" := Object(map["OBSIDIAN_VAULT_PATH" := String(vaultPath)])])
  }

  /** The settings as read: a missing file or one that is not JSON counts as empty. */
  function LoadSettings(file: Loaded): (r: Result<Value, InstallError>)
    ensures file.Absent? || file.Malformed? ==> r == Success(Object(map[]))
    ensures file.Parsed? ==> r == Success(file.value)
    ensures r.Failure? <==> file.Unreadable?
  {
    match file
    case Absent => Success(Object(map[]))
    case Malformed => Success(Object(map[]))
    case Unreadable => Failure(SettingsUnreadable)
    case Parsed(v) => Success(v)
  }

  /** The server table of a settings dictionary: its "mcpServers" entry, or a
      new empty one. */
  function Servers(settings: map<string, Value>): Value {
    if "mcpServers" in settings then settings["mcpServers"] else Object(map[])
  }

  /** Adds or replaces this project's entry in the server table. */
  function MergeServer(settings: Value, entry: Value): (r: Result<Value, InstallError>)
    ensures r.Success? <==> settings.Object? && Servers(settings.fields).Object?
    ensures r.Success? ==> r.value.Object? && r.value.fields.Keys == settings.fields.Keys + {"mcpServers"}
  {
    if !settings.Object? then Failure(SettingsNotAnObject)
    else
      var servers := Servers(settings.fields);
      if !servers.Object? then Failure(ServersNotAnObject)
      else Success(Object(settings.fields["mcpServers" := Object(servers.fields[ServerKey := entry])]))
  }

  /** `update_claude_settings(server_path, vault_path)`: the settings to
      write back, given what reading the file gave. */
  function UpdateClaudeSettings(file: Loaded, serverPath: string, vaultPath: string): (r: Result<Value, InstallError>)
    ensures file.Unreadable? ==> r == Failure(SettingsUnreadable)
    ensures file.Absent? || file.Malformed? ==> r.Success?
    ensures r.Success? ==> && r.value.Object? && "mcpServers" in r.value.fields
                           && r.value.fields["mcpServers"].Object?
                           && ServerKey in r.value.fields["mcpServers"].fields
                           && r.value.fields["mcpServers"].fields[ServerKey] == ServerEntry(serverPath, vaultPath)
  {
    var settings :- LoadSettings(file);
    MergeServer(settings, ServerEntry(serverPath, vaultPath))
  }

  /** After a merge the entry is registered as given. */
  lemma MergeRegisters(settings: Value, entry: Value)
    requires MergeServer(settings, entry).Success?
    ensures var out := MergeServer(settings, entry).value;
            out.fields["mcpServers"].Object? && out.fields["mcpServers"].fields[ServerKey] == entry
  {
  }

  /** A merge changes nothing but this project's server entry. */
  lemma MergeKeepsTheRest(settings: Value, entry: Value)
    requires MergeServer(settings, entry).Success?
    ensures var out := MergeServer(settings, entry).value;
            && (forall key :: key in settings.fields && key != "mcpServers" ==> out.fields[key] == settings.fields[key])
            && (forall name :: name in Servers(settings.fields).fields && name != ServerKey
                  ==> out.fields["mcpServers"].fields[name] == Servers(settings.fields).fields[name])
            && out.fields["mcpServers"].fields.Keys == Servers(settings.fields).fields.Keys + {ServerKey}
  {
  }

  /** Installing twice leaves the settings as installing once does, and a
      later install replaces an earlier one's entry. */
  lemma MergeIdempotent(settings: Value, first: Value, second: Value)
    requires MergeServer(settings, first).Success?
    ensures MergeServer(MergeServer(settings, first).value, second) == MergeServer(settings, second)
  {
    var servers := Servers(settings.fields);
    var once := MergeServer(settings, first).value;
    assert Servers(once.fields) == Object(servers.fields[ServerKey := first]);
    assert servers.fields[ServerKey := first][ServerKey := second] == servers.fields[ServerKey := second];
    assert settings.fields["mcpServers" := Object(servers.fields[ServerKey := first])]["mcpServers" := Object(servers.fields[ServerKey := second])]
           == settings.fields["mcpServers" := Object(servers.fields[ServerKey := second])];
  }

  /** With no settings file, or one that is not JSON, the settings written
      hold this server alone. */
  lemma FreshSettings(file: Loaded, serverPath: string, vaultPath: string)
    requires file.Absent? || file.Malformed?
    ensures UpdateClaudeSettings(file, serverPath, vaultPath)
            == Success(Object(map["mcpServers" := Object(map[ServerKey := ServerEntry(serverPath, vaultPath)])]))
  {
  }

  // ---------------------------------------------------------------------
  // The vault path

  /** How an answer to the vault prompt is read: a suggestion by number, or a path. */
  /** A suggestion's index counts from 0 among `~/Documents/Obsidian Vault`,
      `~/Obsidian` and `~/Documents/Notes`. */
  datatype VaultChoice = Suggested(index: nat) | Typed(path: string)

  /** The stripped answer is a number from 1 to 3 selecting a suggestion;
      anything else is taken as a path. */
  function ReadVaultAnswer(h: Host, answer: string): (r: VaultChoice)
    ensures r.Suggested? ==> r.index < 3 && AllDigits(Strip(h, answer)) && DecimalValue(Strip(h, answer)) == r.index + 1
    ensures r.Typed? ==> r.path == Strip(h, answer)
  {
    var s := Strip(h, answer);
    if s != [] && AllDigits(s) && 1 <= DecimalValue(s) <= 3 then Suggested(DecimalValue(s) - 1)
    else Typed(s)
  }

  /** Exactly the answers that are digits naming 1, 2 or 3 pick a suggestion,
      and a typed path is the answer without surrounding whitespace. */
  lemma VaultAnswerCases(h: Host, answer: string)
    ensures ReadVaultAnswer(h, answer).Suggested?
            <==> (var s := Strip(h, answer); s != [] && AllDigits(s) && 1 <= DecimalValue(s) <= 3)
    ensures ReadVaultAnswer(h, answer).Typed? ==> ReadVaultAnswer(h, answer).path == Strip(h, answer)
  {
  }

  /** Typing a suggestion's number picks that suggestion. */
  lemma NumberPicksSuggestion(h: Host, n: nat)
    requires 1 <= n <= 3
    ensures ReadVaultAnswer(h, Digits(n, 1)) == Suggested(n - 1)
  {
    var s := Digits(n, 1);
    assert |s| == 1 && !IsSpace(h, s[0]);
    assert Strip(h, s) == s;
    DigitsRoundTrip(n, 1);
  }

  // ---------------------------------------------------------------------
  // The project configuration

  /** `.strip()` of the folder answer, or `Projects/<directory name>` when that is empty. */
  function FolderChoice(h: Host, answer: string, name: string): (r: string)
    ensures r != []
    ensures Strip(h, answer) != [] ==> r == Strip(h, answer)
  {
    var s := Strip(h, answer);
    if s == [] then "Projects/" + name else s
  }

  /** A whitespace-only answer takes the default folder. */
  lemma BlankAnswerTakesDefault(h: Host, answer: string, name: string)
    requires forall i :: 0 <= i < |answer| ==> IsSpace(h, answer[i])
    ensures FolderChoice(h, answer, name) == "Projects/" + name
  {
    StripEmpty(h, answer);
  }

  /** The literal parts of a project template around its fields and the
      directory name: heading, title, stamp line, timestamp, project line,
      the name, what follows it, the content, then the trailer. */
  datatype ProjectLayout = ProjectLayout(heading: string, stampLine: string, projectLine: string,
                                         afterName: string, trailer: string)

  predicate LayoutBraceFree(l: ProjectLayout) {
    BraceFree(l.heading) && BraceFree(l.stampLine) && BraceFree(l.projectLine)
    && BraceFree(l.afterName) && BraceFree(l.trailer)
  }

  const ReportLayout := ProjectLayout(
    "# ",
    "\n\n**\U{1F4CB} " + "Report Generated" + "**\n- **Date:** ",
    "\n- **Project:** ",
    "\n- **Type:** " + "Technical Report" + "\n\n---\n\n",
    "\n\n---\n\n" + "*Generated by " + "Claude Code*")

  const ReviewLayout := ProjectLayout(
    "# Code Review: ",
    "\n\n**\U{1F440} " + "Review Details" + "**\n- **Date:** ",
    "\n- **Project:** ",
    "\n- **Reviewer:** " + "Claude Code" + "\n\n---\n\n" + "## Summary\n\n",
    "\n\n---\n\n" + "*Automated review" + " by Claude Code*")

  const NoteLayout := ProjectLayout(
    "# ",
    "\n\n**\U{1F4DD} Note**" + "\n- **Created:** ",
    "\n- **Project:** ",
    "\n\n---\n\n",
    "")

  lemma BraceFreeJoin(a: string, b: string, c: string)
    requires BraceFree(a) && BraceFree(b) && BraceFree(c)
    ensures BraceFree(a + b + c)
  {
  }

  lemma BraceFreeJoin4(a: string, b: string, c: string, d: string)
    requires BraceFree(a) && BraceFree(b) && BraceFree(c) && BraceFree(d)
    ensures BraceFree(a + b + c + d)
  {
  }

  lemma ReportStampBraceFree()
    ensures BraceFree(ReportLayout.stampLine)
  {
    BraceFreeJoin("\n\n**\U{1F4CB} ", "Report Generated", "**\n- **Date:** ");
  }

  lemma ReportAfterNameBraceFree()
    ensures BraceFree(ReportLayout.afterName)
  {
    BraceFreeJoin("\n- **Type:** ", "Technical Report", "\n\n---\n\n");
  }

  lemma ReportTrailerBraceFree()
    ensures BraceFree(ReportLayout.trailer)
  {
    BraceFreeJoin("\n\n---\n\n", "*Generated by ", "Claude Code*");
  }

  lemma ReportLayoutBraceFree()
    ensures LayoutBraceFree(ReportLayout)
  {
    ReportStampBraceFree();
    ReportAfterNameBraceFree();
    ReportTrailerBraceFree();
    assert BraceFree(ReportLayout.projectLine);
  }

  lemma ReviewStampBraceFree()
    ensures BraceFree(ReviewLayout.stampLine)
  {
    BraceFreeJoin("\n\n**\U{1F440} ", "Review Details", "**\n- **Date:** ");
  }

  lemma ReviewAfterNameBraceFree()
    ensures BraceFree(ReviewLayout.afterName)
  {
    BraceFreeJoin4("\n- **Reviewer:** ", "Claude Code", "\n\n---\n\n", "## Summary\n\n");
  }

  lemma ReviewTrailerBraceFree()
    ensures BraceFree(ReviewLayout.trailer)
  {
    BraceFreeJoin("\n\n---\n\n", "*Automated review", " by Claude Code*");
  }

  lemma ReviewLayoutBraceFree()
    ensures LayoutBraceFree(ReviewLayout)
  {
    ReviewStampBraceFree();
    ReviewAfterNameBraceFree();
    ReviewTrailerBraceFree();
    assert BraceFree(ReviewLayout.heading) && BraceFree(ReviewLayout.projectLine);
  }

  lemma NoteLayoutBraceFree()
    ensures LayoutBraceFree(NoteLayout)
  {
    assert BraceFree("\n\n**\U{1F4DD} Note**") && BraceFree("\n- **Created:** ");
    assert BraceFree("\n- **Project:** ") && BraceFree("\n\n---\n\n");
  }

  /** The template as the installer writes it: the directory name is pasted
      into the template text, so braces in it are read as fields. */
  function AsWrittenTemplate(l: ProjectLayout, name: string): string {
    l.heading + (Slot(Title) + (l.stampLine + (Slot(Timestamp) + (l.projectLine + (name
    + (l.afterName + (Slot(Content) + l.trailer)))))))
  }

  /** The template with the directory name as literal text: its braces doubled. */
  function ProjectTemplate(l: ProjectLayout, name: string): string {
    AsWrittenTemplate(l, Escape(name))
  }

  /** The note a project template is meant to produce. */
  function ProjectNote(l: ProjectLayout, name: string, v: Vars): string {
    l.heading + (v.title + (l.stampLine + (v.timestamp + (l.projectLine + (name
    + (l.afterName + (v.content + l.trailer)))))))
  }

  /** The project template as literal text and fields. */
  function ProjectSegments(l: ProjectLayout, name: string): seq<Segment> {
    [Text(l.heading), Hole(Title), Text(l.stampLine), Hole(Timestamp), Text(l.projectLine),
     Text(name), Text(l.afterName), Hole(Content), Text(l.trailer)]
  }

  lemma ProjectSegmentsCompose(l: ProjectLayout, name: string)
    requires LayoutBraceFree(l)
    ensures Compose(ProjectSegments(l, name)) == ProjectTemplate(l, name)
  {
    var s9: seq<Segment> := [];
    var s8 := [Text(l.trailer)] + s9;
    var s7 := [Hole(Content)] + s8;
    var s6 := [Text(l.afterName)] + s7;
    var s5 := [Text(name)] + s6;
    var s4 := [Text(l.projectLine)] + s5;
    var s3 := [Hole(Timestamp)] + s4;
    var s2 := [Text(l.stampLine)] + s3;
    var s1 := [Hole(Title)] + s2;
    var s0 := [Text(l.heading)] + s1;
    assert ProjectSegments(l, name) == s0;
    assert Compose(s8) == l.trailer by { EscapeBraceFree(l.trailer); ComposeCons(Text(l.trailer), s9); assert l.trailer + "" == l.trailer; }
    assert Compose(s7) == Slot(Content) + l.trailer by { ComposeCons(Hole(Content), s8); }
    assert Compose(s6) == l.afterName + (Slot(Content) + l.trailer) by { EscapeBraceFree(l.afterName); ComposeCons(Text(l.afterName), s7); }
    assert Compose(s5) == Escape(name) + (l.afterName + (Slot(Content) + l.trailer)) by { ComposeCons(Text(name), s6); }
    assert Compose(s4) == l.projectLine + (Escape(name) + (l.afterName + (Slot(Content) + l.trailer))) by { EscapeBraceFree(l.projectLine); ComposeCons(Text(l.projectLine), s5); }
    assert Compose(s3) == Slot(Timestamp) + (l.projectLine + (Escape(name) + (l.afterName + (Slot(Content) + l.trailer)))) by { ComposeCons(Hole(Timestamp), s4); }
    assert Compose(s2) == l.stampLine + (Slot(Timestamp) + (l.projectLine + (Escape(name) + (l.afterName + (Slot(Content) + l.trailer))))) by { EscapeBraceFree(l.stampLine); ComposeCons(Text(l.stampLine), s3); }
    assert Compose(s1) == Slot(Title) + (l.stampLine + (Slot(Timestamp) + (l.projectLine + (Escape(name) + (l.afterName + (Slot(Content) + l.trailer)))))) by { ComposeCons(Hole(Title), s2); }
    assert Compose(s0) == l.heading + (Slot(Title) + (l.stampLine + (Slot(Timestamp) + (l.projectLine + (Escape(name) + (l.afterName + (Slot(Content) + l.trailer))))))) by { EscapeBraceFree(l.heading); ComposeCons(Text(l.heading), s1); }
  }

  lemma ProjectSegmentsFill(l: ProjectLayout, name: string, v: Vars)
    ensures Fill(ProjectSegments(l, name), v) == ProjectNote(l, name, v)
  {
    var s9: seq<Segment> := [];
    var s8 := [Text(l.trailer)] + s9;
    var s7 := [Hole(Content)] + s8;
    var s6 := [Text(l.afterName)] + s7;
    var s5 := [Text(name)] + s6;
    var s4 := [Text(l.projectLine)] + s5;
    var s3 := [Hole(Timestamp)] + s4;
    var s2 := [Text(l.stampLine)] + s3;
    var s1 := [Hole(Title)] + s2;
    var s0 := [Text(l.heading)] + s1;
    assert ProjectSegments(l, name) == s0;
    assert Fill(s8, v) == l.trailer by { FillCons(Text(l.trailer), s9, v); assert l.trailer + "" == l.trailer; }
    assert Fill(s7, v) == v.content + l.trailer by { FillCons(Hole(Content), s8, v); }
    assert Fill(s6, v) == l.afterName + (v.content + l.trailer) by { FillCons(Text(l.afterName), s7, v); }
    assert Fill(s5, v) == name + (l.afterName + (v.content + l.trailer)) by { FillCons(Text(name), s6, v); }
    assert Fill(s4, v) == l.projectLine + (name + (l.afterName + (v.content + l.trailer))) by { FillCons(Text(l.projectLine), s5, v); }
    assert Fill(s3, v) == v.timestamp + (l.projectLine + (name + (l.afterName + (v.content + l.trailer)))) by { FillCons(Hole(Timestamp), s4, v); }
    assert Fill(s2, v) == l.stampLine + (v.timestamp + (l.projectLine + (name + (l.afterName + (v.content + l.trailer))))) by { FillCons(Text(l.stampLine), s3, v); }
    assert Fill(s1, v) == v.title + (l.stampLine + (v.timestamp + (l.projectLine + (name + (l.afterName + (v.content + l.trailer)))))) by { FillCons(Hole(Title), s2, v); }
    assert Fill(s0, v) == l.heading + (v.title + (l.stampLine + (v.timestamp + (l.projectLine + (name + (l.afterName + (v.content + l.trailer))))))) by { FillCons(Text(l.heading), s1, v); }
  }

  /** A project template renders to the intended note for every directory
      name: the name appears as written and the project value is not used. */
  lemma ProjectTemplateRenders(l: ProjectLayout, name: string, v: Vars)
    requires LayoutBraceFree(l)
    ensures Render(ProjectTemplate(l, name), v) == Success(ProjectNote(l, name, v))
  {
    ProjectSegmentsCompose(l, name);
    RenderCompose(ProjectSegments(l, name), v);
    ProjectSegmentsFill(l, name, v);
  }

  /** For a name without braces the installer's text is already the intended template. */
  lemma AsWrittenAgreesWithoutBraces(l: ProjectLayout, name: string)
    requires BraceFree(name)
    ensures AsWrittenTemplate(l, name) == ProjectTemplate(l, name)
  {
    EscapeBraceFree(name);
  }

  /** The text in front of the directory name in the installer's template. */
  function BeforeName(l: ProjectLayout): string {
    l.heading + (Slot(Title) + (l.stampLine + (Slot(Timestamp) + l.projectLine)))
  }

  /** The text after the directory name in the installer's template. */
  function AfterName(l: ProjectLayout): string {
    l.afterName + (Slot(Content) + l.trailer)
  }

  lemma AsWrittenSplit(l: ProjectLayout, name: string)
    ensures AsWrittenTemplate(l, name) == BeforeName(l) + (name + AfterName(l))
  {
  }

  lemma BeforeNameParses(l: ProjectLayout, v: Vars)
    requires LayoutBraceFree(l)
    ensures Parse(BeforeName(l)).Success?
  {
    RenderBraceFree(l.heading, v);
    RenderBraceFree(l.stampLine, v);
    RenderBraceFree(l.projectLine, v);
    RenderSlot(Title, v);
    RenderSlot(Timestamp, v);
    RenderAppend(Slot(Timestamp), l.projectLine, v);
    RenderAppend(l.stampLine, Slot(Timestamp) + l.projectLine, v);
    RenderAppend(Slot(Title), l.stampLine + (Slot(Timestamp) + l.projectLine), v);
    RenderAppend(l.heading, Slot(Title) + (l.stampLine + (Slot(Timestamp) + l.projectLine)), v);
  }

  /** A directory named like a field, `{x}` for a name other than the four
      placeholders, makes every save with the installer's template fail. */
  lemma AsWrittenRejectsBracedName(l: ProjectLayout, field: string, v: Vars)
    requires LayoutBraceFree(l)
    requires field != [] && BraceFree(field) && NameLength(field) == |field| && Named(field).None?
    ensures Render(AsWrittenTemplate(l, "{" + field + "}"), v) == Failure(UnknownField(field))
  {
    AsWrittenSplit(l, "{" + field + "}");
    BeforeNameParses(l, v);
    RenderUnknownField(BeforeName(l), field, AfterName(l), v);
  }

  /** For instance, a project directory named `{x}`: the installer's note
      template cannot be rendered, the escaped one names the directory. */
  lemma BracedDirectoryBreaksNotes(v: Vars)
    ensures Render(AsWrittenTemplate(NoteLayout, "{x}"), v) == Failure(UnknownField("x"))
    ensures Render(ProjectTemplate(NoteLayout, "{x}"), v) == Success(ProjectNote(NoteLayout, "{x}", v))
  {
    NoteLayoutBraceFree();
    assert Named("x").None? && NameLength("x") == 1;
    AsWrittenRejectsBracedName(NoteLayout, "x", v);
    assert "{" + "x" + "}" == "{x}";
    ProjectTemplateRenders(NoteLayout, "{x}", v);
  }

  /** The content types a project configuration has a template for. */
  predicate IsProjectType(contentType: string) {
    contentType == "report" || contentType == "review" || contentType == "note"
  }

  /** The layout of the project template for one of those types. */
  function LayoutOf(contentType: string): ProjectLayout {
    if contentType == "report" then ReportLayout
    else if contentType == "review" then ReviewLayout
    else NoteLayout
  }

  lemma LayoutOfBraceFree(contentType: string)
    ensures LayoutBraceFree(LayoutOf(contentType))
  {
    ReportLayoutBraceFree();
    ReviewLayoutBraceFree();
    NoteLayoutBraceFree();
  }

  /** A project configuration: the folder and the three templates. */
  function ConfigWith(folder: string, report: string, review: string, note: string): Value {
    Object(map[
      "folder" := String(folder),
      "templates" := Object(map["report" := String(report), "review" := String(review), "note" := String(note)])])
  }

  /** A save under such a configuration uses its folder, its template for
      the three project types and the content as is for every other type. */
  lemma ConfigWithEntries(folder: string, report: string, review: string, note: string, contentType: string)
    ensures TargetFolder(ConfigWith(folder, report, review, note)) == Success(folder)
    ensures SelectTemplate(ConfigWith(folder, report, review, note), contentType)
            == Success(if contentType == "report" then report
                       else if contentType == "review" then review
                       else if contentType == "note" then note
                       else Passthrough)
  {
  }

  /** The configuration `create_project_config` writes for a directory: the
      directory name is pasted into each template as it is. */
  function ProjectConfig(h: Host, cwd: Path, answer: string): (r: Value)
    ensures r.Object? && TargetFolder(r) == Success(FolderChoice(h, answer, ProjectName(cwd)))
    ensures forall contentType :: SelectTemplate(r, contentType)
              == Success(if IsProjectType(contentType) then AsWrittenTemplate(LayoutOf(contentType), ProjectName(cwd))
                         else Passthrough)
  {
    var name := ProjectName(cwd);
    var r := ConfigWith(FolderChoice(h, answer, name), AsWrittenTemplate(ReportLayout, name),
                        AsWrittenTemplate(ReviewLayout, name), AsWrittenTemplate(NoteLayout, name));
    assert forall contentType :: SelectTemplate(r, contentType)
             == Success(if IsProjectType(contentType) then AsWrittenTemplate(LayoutOf(contentType), name)
                        else Passthrough) by {
      forall contentType {
        ConfigWithEntries(FolderChoice(h, answer, name), AsWrittenTemplate(ReportLayout, name),
                          AsWrittenTemplate(ReviewLayout, name), AsWrittenTemplate(NoteLayout, name), contentType);
      }
    }
    ConfigWithEntries(FolderChoice(h, answer, name), AsWrittenTemplate(ReportLayout, name),
                      AsWrittenTemplate(ReviewLayout, name), AsWrittenTemplate(NoteLayout, name), "");
    r
  }

  /** The configuration as intended: the directory name as literal text in
      each template. */
  function CorrectedProjectConfig(h: Host, cwd: Path, answer: string): (r: Value)
    ensures r.Object? && TargetFolder(r) == Success(FolderChoice(h, answer, ProjectName(cwd)))
    ensures forall contentType :: SelectTemplate(r, contentType)
              == Success(if IsProjectType(contentType) then ProjectTemplate(LayoutOf(contentType), ProjectName(cwd))
                         else Passthrough)
  {
    var name := ProjectName(cwd);
    var r := ConfigWith(FolderChoice(h, answer, name), ProjectTemplate(ReportLayout, name),
                        ProjectTemplate(ReviewLayout, name), ProjectTemplate(NoteLayout, name));
    assert forall contentType :: SelectTemplate(r, contentType)
             == Success(if IsProjectType(contentType) then ProjectTemplate(LayoutOf(contentType), name)
                        else Passthrough) by {
      forall contentType {
        ConfigWithEntries(FolderChoice(h, answer, name), ProjectTemplate(ReportLayout, name),
                          ProjectTemplate(ReviewLayout, name), ProjectTemplate(NoteLayout, name), contentType);
      }
    }
    ConfigWithEntries(FolderChoice(h, answer, name), ProjectTemplate(ReportLayout, name),
                      ProjectTemplate(ReviewLayout, name), ProjectTemplate(NoteLayout, name), "");
    r
  }

  /** `create_project_config()`: the configuration to write, or nothing when
      the working directory already has a configuration file. */
  function CreateProjectConfig(h: Host, disk: Disk, cwd: Path, answer: string): (r: Option<Value>)
    ensures r.None? <==> !Probe(disk, cwd).Absent?
  {
    if !Probe(disk, cwd).Absent? then None else Some(ProjectConfig(h, cwd, answer))
  }

  /** Once written, the project configuration is the one every save from
      that directory uses: notes go to the chosen folder, and for a directory
      name without braces the body of a report, review or note names the
      directory exactly, while other types keep the content as is. */
  lemma SavesUseCreatedConfig(h: Host, disk: Disk, answer: string, req: SaveRequest, env: Env)
    requires Valid(env.now)
    requires BraceFree(ProjectName(env.cwd))
    requires CreateProjectConfig(h, disk, env.cwd, answer).Some?
    ensures var config := CreateProjectConfig(h, disk, env.cwd, answer).value;
            var disk' := disk[env.cwd := Parsed(config)];
            && Resolve(env.cwd, disk') == config
            && TargetFolder(config) == Success(FolderChoice(h, answer, ProjectName(env.cwd)))
            && RenderBody(config, req, env)
               == Success(if IsProjectType(req.contentType)
                          then ProjectNote(LayoutOf(req.contentType), ProjectName(env.cwd), TemplateVars(req, env))
                          else req.content)
  {
    var config := CreateProjectConfig(h, disk, env.cwd, answer).value;
    var name := ProjectName(env.cwd);
    OwnConfigWins(env.cwd, disk, config);
    if IsProjectType(req.contentType) {
      LayoutOfBraceFree(req.contentType);
      AsWrittenAgreesWithoutBraces(LayoutOf(req.contentType), name);
      ProjectTemplateRenders(LayoutOf(req.contentType), name, TemplateVars(req, env));
      RenderBodyIs(config, req, env, ProjectTemplate(LayoutOf(req.contentType), name),
                   ProjectNote(LayoutOf(req.contentType), name, TemplateVars(req, env)));
    } else {
      RenderPassthrough(config, req, env);
    }
  }

  /** A project directory named like a field, `{x}` for a name other than
      the four placeholders, makes every report, review and note saved from
      it fail under the written configuration. */
  lemma BracedDirectoryFailsSaves(h: Host, answer: string, req: SaveRequest, env: Env, field: string)
    requires Valid(env.now) && IsProjectType(req.contentType)
    requires field != [] && BraceFree(field) && NameLength(field) == |field| && Named(field).None?
    requires ProjectName(env.cwd) == "{" + field + "}"
    ensures Save(ProjectConfig(h, env.cwd, answer), req, env) == Failure(TemplateRejected(UnknownField(field)))
  {
    LayoutOfBraceFree(req.contentType);
    BracedNameFailsSave(ProjectConfig(h, env.cwd, answer), req, env, LayoutOf(req.contentType), field);
  }

  lemma BracedNameFailsSave(config: Value, req: SaveRequest, env: Env, l: ProjectLayout, field: string)
    requires Valid(env.now) && LayoutBraceFree(l)
    requires field != [] && BraceFree(field) && NameLength(field) == |field| && Named(field).None?
    requires SelectTemplate(config, req.contentType) == Success(AsWrittenTemplate(l, "{" + field + "}"))
    ensures Save(config, req, env) == Failure(TemplateRejected(UnknownField(field)))
  {
    AsWrittenRejectsBracedName(l, field, TemplateVars(req, env));
    SaveRejects(config, req, env, AsWrittenTemplate(l, "{" + field + "}"), UnknownField(field));
  }

  /** The corrected configuration serves every directory name: the body of
      a report, review or note names the directory exactly. */
  lemma CorrectedConfigServesEveryName(h: Host, answer: string, req: SaveRequest, env: Env)
    requires Valid(env.now)
    ensures var config := CorrectedProjectConfig(h, env.cwd, answer);
            && TargetFolder(config) == Success(FolderChoice(h, answer, ProjectName(env.cwd)))
            && RenderBody(config, req, env)
               == Success(if IsProjectType(req.contentType)
                          then ProjectNote(LayoutOf(req.contentType), ProjectName(env.cwd), TemplateVars(req, env))
                          else req.content)
  {
    var config := CorrectedProjectConfig(h, env.cwd, answer);
    var name := ProjectName(env.cwd);
    if IsProjectType(req.contentType) {
      LayoutOfBraceFree(req.contentType);
      ProjectTemplateRenders(LayoutOf(req.contentType), name, TemplateVars(req, env));
      RenderBodyIs(config, req, env, ProjectTemplate(LayoutOf(req.contentType), name),
                   ProjectNote(LayoutOf(req.contentType), name, TemplateVars(req, env)));
    } else {
      RenderPassthrough(config, req, env);
    }
  }
}

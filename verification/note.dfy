/** The pure body of `save_to_obsidian` and the argument handling of
    `handle_call_tool`: template choice and rendering, the file name, the
    tags, the front-matter and the text written. */
module Note {
  import opened Results
  import opened Json
  import opened Text
  import opened Python
  import opened Clock
  import opened Template
  import opened Config

  /** What a save reads from its surroundings: the vault root, the working
      directory, one clock reading and the runtime's text primitives. */
  datatype Env = Env(vault: string, cwd: Path, now: DateTime, host: Host)

  datatype SaveRequest = SaveRequest(content: string, title: string, contentType: string, tags: seq<string>)

  /** The note to write: `destination` lists the parts pathlib joins
      (vault, folder, file name); `message` is the text returned to the caller. */
  datatype Saved = Saved(destination: seq<string>, text: string, message: string)

  /** The exception that ends a save, reported as "Failed to save to Obsidian". */
  datatype SaveError =
    | ConfigNotAnObject
    | TemplatesNotAnObject
    | TemplateNotAString
    | TemplateRejected(why: FormatError)
    | FolderNotAString

  /** Rejections by `handle_call_tool` before or around the save. */
  datatype ToolError =
    | UnknownTool(name: string)
    | BadArgument(key: string)   // an argument of a JSON type other than the schema's
    | SaveFailed(cause: SaveError)

  const ToolName := "save_to_obsidian"
  const Passthrough := Slot(Content)

  /** `Path.cwd().name`: the last segment, empty at the root. */
  function ProjectName(cwd: Path): string {
    if cwd == [] then "" else cwd[|cwd| - 1]
  }

  // ---------------------------------------------------------------------
  // File name

  /** The characters a title keeps in its file name. */
  predicate Kept(h: Host, c: char) {
    IsAlnum(h, c) || c == ' ' || c == '-' || c == '_'
  }

  function KeepOnly(h: Host, s: string): (r: string)
    ensures forall i :: 0 <= i < |r| ==> Kept(h, r[i])
    ensures IsSubsequence(r, s)
    ensures (forall i :: 0 <= i < |s| ==> Kept(h, s[i])) ==> r == s
    ensures forall c :: Kept(h, c) ==> multiset(r)[c] == multiset(s)[c]
  {
    if s == [] then []
    else
      var rest := KeepOnly(h, s[1..]);
      assert s == [s[0]] + s[1..];
      if Kept(h, s[0]) then [s[0]] + rest else rest
  }

  /** The title made safe for a file name: only alphanumerics, space, `-`
      and `_`, in their original order, without trailing whitespace. */
  function SafeTitle(h: Host, title: string): (r: string)
    ensures forall i :: 0 <= i < |r| ==> Kept(h, r[i])
    ensures '/' !in r && '.' !in r
    ensures IsSubsequence(r, title)
    ensures r == [] || !IsSpace(h, r[|r| - 1])
    ensures StartsWith(KeepOnly(h, title), r)
    ensures forall k :: |r| <= k < |KeepOnly(h, title)| ==> IsSpace(h, KeepOnly(h, title)[k])
  {
    var kept := KeepOnly(h, title);
    var r := RStrip(h, kept);
    KeptPrefix(h, title, kept, r);
    r
  }

  /** A prefix of the kept characters keeps their properties. */
  lemma KeptPrefix(h: Host, title: string, kept: string, r: string)
    requires forall i :: 0 <= i < |kept| ==> Kept(h, kept[i])
    requires IsSubsequence(kept, title)
    requires StartsWith(kept, r)
    ensures forall i :: 0 <= i < |r| ==> Kept(h, r[i])
    ensures '/' !in r && '.' !in r
    ensures IsSubsequence(r, title)
  {
    SubsequencePrefix(kept, title, |r|);
    assert kept[..|r|] == r;
    assert forall i :: 0 <= i < |r| ==> r[i] == kept[i];
  }

  lemma SafeTitleIdempotent(h: Host, title: string)
    ensures SafeTitle(h, SafeTitle(h, title)) == SafeTitle(h, title)
  {
    var r := SafeTitle(h, title);
    assert KeepOnly(h, r) == r;
  }

  /** `f"{timestamp_prefix}_{safe_title}.md"`: the stamp and the safe title
      can be read back from their fixed positions, and the only dot is the
      one before the extension. */
  function NoteFilename(h: Host, now: DateTime, title: string): (r: string)
    requires Valid(now)
    ensures |r| == 19 + |SafeTitle(h, title)|
    ensures r[..15] == CompactStamp(now) && r[15] == '_'
    ensures r[16..|r| - 3] == SafeTitle(h, title)
    ensures EndsWith(r, ".md")
    ensures '/' !in r
    ensures forall i :: 0 <= i < |r| && r[i] == '.' ==> i == |r| - 3
  {
    FilenameShape(CompactStamp(now), SafeTitle(h, title));
    CompactStamp(now) + "_" + SafeTitle(h, title) + ".md"
  }

  lemma FilenameShape(stamp: string, safe: string)
    requires |stamp| == 15 && stamp[8] == '_' && AllDigits(stamp[..8]) && AllDigits(stamp[9..])
    requires '/' !in safe && '.' !in safe
    ensures var r := stamp + "_" + safe + ".md";
            && |r| == 19 + |safe| && r[..15] == stamp && r[15] == '_' && r[16..|r| - 3] == safe
            && EndsWith(r, ".md") && '/' !in r
            && forall i :: 0 <= i < |r| && r[i] == '.' ==> i == |r| - 3
  {
    var r := stamp + "_" + safe + ".md";
    assert forall i :: 0 <= i < 15 ==> r[i] == stamp[i] && stamp[i] != '/' && stamp[i] != '.' by {
      forall i | 0 <= i < 15 ensures stamp[i] != '/' && stamp[i] != '.' {
        if i < 8 {
          assert stamp[..8][i] == stamp[i];
        } else if i > 8 {
          assert stamp[9..][i - 9] == stamp[i];
        }
      }
    }
    assert forall i :: 16 <= i < |r| - 3 ==> r[i] == safe[i - 16];
    assert r[16..|r| - 3] == safe;
    assert r[|r| - 3..] == ".md";
  }

  // ---------------------------------------------------------------------
  // Tags and front-matter

  /** `["claude-code", content_type, project_name.lower()] + tags`. */
  function NoteTags(h: Host, contentType: string, project: string, tags: seq<string>): (r: seq<string>)
    ensures |r| == |tags| + 3
    ensures r[0] == "claude-code" && r[1] == contentType && r[2] == h.lower(project)
    ensures forall i :: 0 <= i < |tags| ==> r[i + 3] == tags[i]
  {
    ["claude-code", contentType, h.lower(project)] + tags
  }

  /** The lines of the header block: the creation time, the source and the
      tag list between two `---` lines, then a blank line. */
  function HeaderLines(created: string, tagList: string): seq<string> {
    ["---", "created: " + created, "source: claude-code", "tags: " + tagList, "---", ""]
  }

  /** The header block, given the creation time and the tag list as text. */
  function FrontMatter(created: string, tagList: string): string {
    JoinLines(HeaderLines(created, tagList))
  }

  /** `generate_frontmatter(tags)`. */
  function GenerateFrontmatter(h: Host, now: DateTime, tags: seq<string>): (r: string)
    requires Valid(now)
    ensures '\n' !in h.reprList(tags) ==>
              forall body :: ReadNote(r + body) == Some(NoteParts(IsoFormat(now), h.reprList(tags), body))
  {
    var r := FrontMatter(IsoFormat(now), h.reprList(tags));
    assert '\n' !in h.reprList(tags) ==>
             forall body :: ReadNote(r + body) == Some(NoteParts(IsoFormat(now), h.reprList(tags), body)) by {
      if '\n' !in h.reprList(tags) {
        forall body ensures ReadNote(r + body) == Some(NoteParts(IsoFormat(now), h.reprList(tags), body)) {
          ReadNoteFrontMatter(IsoFormat(now), h.reprList(tags), body);
        }
      }
    }
    r
  }

  /** The fields of a written note: the `created:` value, the `tags:` value,
      and the body after the blank line that closes the header. */
  datatype NoteParts = NoteParts(created: string, tagList: string, body: string)

  /** Reads a note back into its header fields and body. */
  function ReadNote(text: string): Option<NoteParts> {
    match ReadLines(text, 6)
    case None => None
    case Some(read) =>
      var lines := read.0;
      if && lines[0] == "---" && StartsWith(lines[1], "created: ") && lines[2] == "source: claude-code"
         && StartsWith(lines[3], "tags: ") && lines[4] == "---" && lines[5] == ""
      then Some(NoteParts(lines[1][9..], lines[3][6..], read.1))
      else None
  }

  lemma HeaderSingleLines(created: string, tagList: string)
    requires '\n' !in created && '\n' !in tagList
    ensures SingleLines(HeaderLines(created, tagList))
  {
    var lines := HeaderLines(created, tagList);
    assert '\n' !in lines[0] && '\n' !in lines[2] && '\n' !in lines[4] && '\n' !in lines[5];
  }

  /** Reading a note undoes writing its header in front of the body. */
  lemma ReadNoteFrontMatter(created: string, tagList: string, body: string)
    requires '\n' !in created && '\n' !in tagList
    ensures ReadNote(FrontMatter(created, tagList) + body) == Some(NoteParts(created, tagList, body))
  {
    var lines := HeaderLines(created, tagList);
    HeaderSingleLines(created, tagList);
    ReadJoinedLines(lines, body);
    assert lines[1][..9] == "created: " && lines[1][9..] == created;
    assert lines[3][..6] == "tags: " && lines[3][6..] == tagList;
  }

  /** Conversely, a note that reads back is exactly its header followed by its body. */
  lemma FrontMatterOfReadNote(text: string)
    requires ReadNote(text).Some?
    ensures var parts := ReadNote(text).value;
            && '\n' !in parts.created && '\n' !in parts.tagList
            && text == FrontMatter(parts.created, parts.tagList) + parts.body
  {
    var read := ReadLines(text, 6).value;
    JoinReadLines(text, 6, read.0, read.1);
    var lines := read.0;
    var parts := ReadNote(text).value;
    assert parts == NoteParts(lines[1][9..], lines[3][6..], read.1);
    LineField(lines[1], "created: ");
    LineField(lines[3], "tags: ");
    assert lines == HeaderLines(parts.created, parts.tagList);
  }

  /** The value after a line's label is the line without the label. */
  lemma LineField(line: string, labelText: string)
    requires StartsWith(line, labelText) && '\n' !in line
    ensures line == labelText + line[|labelText|..] && '\n' !in line[|labelText|..]
  {
    assert line == line[..|labelText|] + line[|labelText|..];
    assert forall i :: 0 <= i < |line[|labelText|..]| ==> line[|labelText|..][i] == line[|labelText| + i];
  }

  // ---------------------------------------------------------------------
  // The save

  /** `config.get("templates", {}).get(content_type, "{content}")`. */
  function SelectTemplate(config: Value, contentType: string): Result<string, SaveError> {
    if !config.Object? then Failure(ConfigNotAnObject)
    else
      match Get(config.fields, "templates", Object(map[]))
      case Object(templates) =>
        (match Get(templates, contentType, String(Passthrough))
         case String(t) => Success(t)
         case _ => Failure(TemplateNotAString))
      case _ => Failure(TemplatesNotAnObject)
  }

  /** `config.get("folder", "Claude Code")`, which pathlib needs to be a string. */
  function TargetFolder(config: Value): Result<string, SaveError>
    requires config.Object?
  {
    match Get(config.fields, "folder", String(DefaultFolder))
    case String(f) => Success(f)
    case _ => Failure(FolderNotAString)
  }

  function TemplateVars(req: SaveRequest, env: Env): Vars
    requires Valid(env.now)
  {
    Vars(req.title, DisplayStamp(env.now), ProjectName(env.cwd), req.content)
  }

  /** The body of the note: the selected template rendered with the request. */
  function RenderBody(config: Value, req: SaveRequest, env: Env): Result<string, SaveError>
    requires Valid(env.now)
  {
    var template :- SelectTemplate(config, req.contentType);
    match Render(template, TemplateVars(req, env))
    case Success(body) => Success(body)
    case Failure(e) => Failure(TemplateRejected(e))
  }

  /** `save_to_obsidian(content, title, content_type, tags)` with the
      configuration already resolved. */
  function Save(config: Value, req: SaveRequest, env: Env): (r: Result<Saved, SaveError>)
    requires Valid(env.now)
    ensures r.Success? <==> RenderBody(config, req, env).Success? && config.Object? && TargetFolder(config).Success?
    ensures RenderBody(config, req, env).Failure? ==> r == Failure(RenderBody(config, req, env).error)
    ensures r.Success? ==> r.value.destination == [env.vault, TargetFolder(config).value, NoteFilename(env.host, env.now, req.title)]
  {
    var body :- RenderBody(config, req, env);
    var filename := NoteFilename(env.host, env.now, req.title);
    var folder :- TargetFolder(config);
    var project := ProjectName(env.cwd);
    var tags := NoteTags(env.host, req.contentType, project, req.tags);
    var text := GenerateFrontmatter(env.host, env.now, tags) + body;
    var destination := [env.vault, folder, filename];
    Success(Saved(destination, text,
      "Successfully saved " + req.contentType + " '" + req.title + "' to "
      + env.host.showPath(destination) + "\nProject: " + project + "\nFolder: " + folder))
  }

  /** What a successful save writes and where. */
  lemma SaveWrites(config: Value, req: SaveRequest, env: Env)
    requires Valid(env.now)
    requires '\n' !in env.host.reprList(NoteTags(env.host, req.contentType, ProjectName(env.cwd), req.tags))
    ensures Save(config, req, env).Success? ==>
            var saved := Save(config, req, env).value;
            var body := RenderBody(config, req, env).value;
            && saved.destination == [env.vault, TargetFolder(config).value, NoteFilename(env.host, env.now, req.title)]
            && ReadNote(saved.text)
               == Some(NoteParts(IsoFormat(env.now),
                                 env.host.reprList(NoteTags(env.host, req.contentType, ProjectName(env.cwd), req.tags)),
                                 body))
            && EndsWith(saved.text, body)
  {
    if Save(config, req, env).Success? {
      var tags := NoteTags(env.host, req.contentType, ProjectName(env.cwd), req.tags);
      ReadNoteFrontMatter(IsoFormat(env.now), env.host.reprList(tags), RenderBody(config, req, env).value);
      assert EndsWith(Save(config, req, env).value.text, RenderBody(config, req, env).value);
    }
  }

  /** Without a template for the type the body is the content, exactly. */
  lemma PassthroughBody(config: Value, req: SaveRequest, env: Env)
    requires Valid(env.now)
    requires config.Object?
    requires "templates" !in config.fields
             || (config.fields["templates"].Object? && req.contentType !in config.fields["templates"].fields)
    ensures RenderBody(config, req, env) == Success(req.content)
  {
    SelectPassthrough(config, req.contentType);
    RenderPassthrough(config, req, env);
  }

  lemma RenderPassthrough(config: Value, req: SaveRequest, env: Env)
    requires Valid(env.now)
    requires SelectTemplate(config, req.contentType) == Success(Passthrough)
    ensures RenderBody(config, req, env) == Success(req.content)
  {
    RenderSlot(Content, TemplateVars(req, env));
    RenderBodyIs(config, req, env, Passthrough, req.content);
  }

  /** The body is whatever the selected template renders to. */
  lemma RenderBodyIs(config: Value, req: SaveRequest, env: Env, template: string, body: string)
    requires Valid(env.now)
    requires SelectTemplate(config, req.contentType) == Success(template)
    requires Render(template, TemplateVars(req, env)) == Success(body)
    ensures RenderBody(config, req, env) == Success(body)
  {
  }

  /** A save whose selected template is rejected fails with that error. */
  lemma SaveRejects(config: Value, req: SaveRequest, env: Env, template: string, e: FormatError)
    requires Valid(env.now)
    requires SelectTemplate(config, req.contentType) == Success(template)
    requires Render(template, TemplateVars(req, env)) == Failure(e)
    ensures Save(config, req, env) == Failure(TemplateRejected(e))
  {
  }

  /** A type the configuration has no template for gets the pass-through. */
  lemma SelectPassthrough(config: Value, contentType: string)
    requires config.Object?
    requires "templates" !in config.fields
             || (config.fields["templates"].Object? && contentType !in config.fields["templates"].fields)
    ensures SelectTemplate(config, contentType) == Success(Passthrough)
  {
  }

  /** A template that `format` rejects fails the whole save. */
  lemma RejectedTemplateFailsSave(config: Value, req: SaveRequest, env: Env)
    requires Valid(env.now)
    ensures (SelectTemplate(config, req.contentType).Success?
             && Render(SelectTemplate(config, req.contentType).value, TemplateVars(req, env)).Failure?)
            ==> Save(config, req, env)
                == Failure(TemplateRejected(Render(SelectTemplate(config, req.contentType).value, TemplateVars(req, env)).error))
  {
  }

  /** The built-in template for a content type, the pass-through for any other. */
  function DefaultTemplateFor(contentType: string): string {
    if contentType == "report" then DefaultReport()
    else if contentType == "review" then DefaultReview()
    else if contentType == "note" then DefaultNote()
    else Passthrough
  }

  lemma SelectDefault(contentType: string)
    ensures SelectTemplate(DefaultConfig(), contentType) == Success(DefaultTemplateFor(contentType))
    ensures TargetFolder(DefaultConfig()) == Success(DefaultFolder)
  {
    var templates := DefaultConfig().fields["templates"].fields;
    assert "templates" in DefaultConfig().fields;
    assert templates.Keys == {"report", "review", "note"};
    if contentType == "report" {
      assert templates[contentType] == String(DefaultReport());
    } else if contentType == "review" {
      assert templates[contentType] == String(DefaultReview());
    } else if contentType == "note" {
      assert templates[contentType] == String(DefaultNote());
    } else {
      assert contentType !in templates;
    }
  }

  /** What the built-in configuration renders for a content type. */
  function DefaultBody(contentType: string, v: Vars): string {
    if contentType == "report" then DefaultRendering("# ", GeneratedLine, v)
    else if contentType == "review" then DefaultRendering("# Code Review: ", GeneratedLine, v)
    else if contentType == "note" then DefaultRendering("# ", CreatedLine, v)
    else v.content
  }

  /** With the built-in configuration the body is the built-in template for
      the type rendered with the request, or the bare content for any other type. */
  lemma DefaultConfigBody(req: SaveRequest, env: Env)
    requires Valid(env.now)
    ensures RenderBody(DefaultConfig(), req, env) == Success(DefaultBody(req.contentType, TemplateVars(req, env)))
  {
    var v := TemplateVars(req, env);
    SelectDefault(req.contentType);
    var template := DefaultTemplateFor(req.contentType);
    assert Render(template, v) == Success(DefaultBody(req.contentType, v)) by {
      DefaultTemplateRenders(req.contentType, v);
    }
  }

  lemma DefaultTemplateRenders(contentType: string, v: Vars)
    ensures Render(DefaultTemplateFor(contentType), v) == Success(DefaultBody(contentType, v))
  {
    if contentType == "report" {
      DefaultTemplatesRender(v);
    } else if contentType == "review" {
      DefaultTemplatesRender(v);
    } else if contentType == "note" {
      DefaultTemplatesRender(v);
    } else {
      RenderSlot(Content, v);
    }
  }

  /** With the built-in configuration every save succeeds and lands in "Claude Code". */
  lemma SaveWithDefaultConfig(req: SaveRequest, env: Env)
    requires Valid(env.now)
    ensures Save(DefaultConfig(), req, env).Success?
    ensures Save(DefaultConfig(), req, env).value.destination
            == [env.vault, DefaultFolder, NoteFilename(env.host, env.now, req.title)]
  {
    DefaultConfigBody(req, env);
    SelectDefault(req.contentType);
  }

  // ---------------------------------------------------------------------
  // The tool call

  /** `arguments.get(key, default)` for a string argument. */
  function StringArgument(args: map<string, Value>, key: string, default: string): Result<string, ToolError> {
    if key !in args then Success(default)
    else if args[key].String? then Success(args[key].s)
    else Failure(BadArgument(key))
  }

  function Strings(items: seq<Value>): (r: Option<seq<string>>)
    ensures r.Some? ==> |r.value| == |items|
                        && forall i :: 0 <= i < |items| ==> items[i] == String(r.value[i])
    ensures r.None? ==> exists i :: 0 <= i < |items| && !items[i].String?
  {
    if items == [] then Some([])
    else if !items[0].String? then None
    else
      match Strings(items[1..])
      case None => None
      case Some(rest) => Some([items[0].s] + rest)
  }

  /** `arguments.get("tags", [])`. */
  function TagsArgument(args: map<string, Value>): Result<seq<string>, ToolError> {
    if "tags" !in args then Success([])
    else if !args["tags"].Array? then Failure(BadArgument("tags"))
    else
      match Strings(args["tags"].items)
      case Some(tags) => Success(tags)
      case None => Failure(BadArgument("tags"))
  }

  /** The arguments have the types the tool's input schema declares: text
      for "content", "title" and "type", a list of texts for "tags". */
  predicate WellTyped(args: map<string, Value>) {
    && ("content" in args ==> args["content"].String?)
    && ("title" in args ==> args["title"].String?)
    && ("type" in args ==> args["type"].String?)
    && ("tags" in args ==>
          && args["tags"].Array?
          && forall i :: 0 <= i < |args["tags"].items| ==> args["tags"].items[i].String?)
  }

  /** The request `handle_call_tool` builds: missing arguments take their
      defaults, and supplied tags are passed on unchanged and in order. */
  function CallArguments(args: map<string, Value>): (r: Result<SaveRequest, ToolError>)
    ensures r.Success? <==> WellTyped(args)
    ensures r.Success? ==>
      && (if "content" in args then String(r.value.content) == args["content"] else r.value.content == "")
      && (if "title" in args then String(r.value.title) == args["title"] else r.value.title == "Untitled")
      && (if "type" in args then String(r.value.contentType) == args["type"] else r.value.contentType == "note")
      && (if "tags" in args
          then |r.value.tags| == |args["tags"].items|
               && forall i :: 0 <= i < |r.value.tags| ==> args["tags"].items[i] == String(r.value.tags[i])
          else r.value.tags == [])
  {
    var content :- StringArgument(args, "content", "");
    var title :- StringArgument(args, "title", "Untitled");
    var contentType :- StringArgument(args, "type", "note");
    var tags :- TagsArgument(args);
    Success(SaveRequest(content, title, contentType, tags))
  }

  /** `handle_call_tool(name, arguments)`, with the project configuration
      resolved from the working directory on every call. */
  function HandleCallTool(name: string, args: map<string, Value>, disk: Disk, env: Env): (r: Result<Saved, ToolError>)
    requires Valid(env.now)
    ensures name != ToolName ==> r == Failure(UnknownTool(name))
    ensures name == ToolName && CallArguments(args).Success? ==>
      r == (match Save(Resolve(env.cwd, disk), CallArguments(args).value, env)
            case Success(saved) => Success(saved)
            case Failure(e) => Failure(SaveFailed(e)))
  {
    if name != ToolName then Failure(UnknownTool(name))
    else
      var req :- CallArguments(args);
      match Save(Resolve(env.cwd, disk), req, env)
      case Success(saved) => Success(saved)
      case Failure(e) => Failure(SaveFailed(e))
  }

  /** A call with no arguments saves an empty "note" titled "Untitled". */
  lemma EmptyCallDefaults()
    ensures CallArguments(map[]) == Success(SaveRequest("", "Untitled", "note", []))
  {
  }
}

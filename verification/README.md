# Obsidian note saving for Claude Code, modelled in Dafny

The modelled system saves text produced in a Claude Code session as Markdown
notes in an Obsidian vault. It has three parts:

- an MCP server with one tool, `save_to_obsidian`. It finds the project's
  `.claude/obsidian.json`, renders a per-type template with `str.format`,
  builds a sanitised, timestamped file name, prepends YAML front-matter and
  names the file it writes;
- a hook script that pulls the response text out of a Claude Code event,
  skips near-empty responses and queues the rest as a save request;
- an installer that registers the server in Claude's `settings.json`, reads
  the vault answer, and writes a project configuration with three templates.

The model is purely functional. Everything the programs read from the outside
world becomes a parameter:

- the file system (which files exist and what they hold);
- one clock reading;
- the current directory and the home directory;
- the answers typed at the installer's prompts.

Python's own tables and text forms are supplied by a `Host` record:

- Unicode `isalnum` and `isspace` (ASCII is modelled exactly);
- `str.lower`;
- `repr` of a list;
- `str` of a number, list or dict;
- `json.dumps`;
- the printed form of a path.

`str.format` is modelled as a parser and renderer for the template language
the programs use. It covers literal text, the `{{` and `}}` escapes, and the
four keyword fields. An unknown field name raises, as `KeyError` does.

Modules, one per file:

| file | module | what it holds |
|---|---|---|
| results.dfy | Results | `Option` and `Result` |
| json.dfy | Json | JSON values and the outcomes of loading a JSON file |
| text.dfy | Text | prefix, suffix, line and decimal helpers |
| python.dfy | Python | the `Host` record, `isalnum`, `isspace`, `str`, `strip` |
| clock.dfy | Clock | the three `strftime`/`isoformat` renderings of one reading |
| template.dfy | Template | `str.format`: `Parse`, `Unparse`, `Render`, `Escape`, segment composition |
| config.dfy | Config | `get_project_config` and the built-in templates |
| note.dfy | Note | `save_to_obsidian`, `generate_frontmatter`, `handle_call_tool` |
| hook.dfy | Hook | `extract_response_content` and the hook's `main` |
| installer.dfy | Installer | `update_claude_settings`, the vault and folder answers, `create_project_config` |

## Model

| member | source | states |
|---|---|---|
| Config.GetProjectConfig | obsidian_mcp_server.py:18-48 | The ancestor search returns the parsed nearest `.claude/obsidian.json`; with none on the way up it returns the default configuration; and it agrees with the recursive reference `Resolve`. |
| Config.Candidates | obsidian_mcp_server.py:24 | The directories searched are the current one and then every parent up to the root, in that order. |
| Config.ResolveNearest | obsidian_mcp_server.py:24-28 | The configuration comes from the nearest directory holding the file, not from any farther one. |
| Config.ResolveNone | obsidian_mcp_server.py:30-38 | With no configuration file anywhere up the tree, the default configuration is used. |
| Config.MalformedNearestUsesDefault | obsidian_mcp_server.py:39-48 | A nearest file that cannot be read or parsed gives the default configuration; the search does not move on to a parent. |
| Config.FartherAncestorsIgnored | obsidian_mcp_server.py:24-28 | Directories above the nearest configured one cannot influence the result. |
| Config.OwnConfigWins | obsidian_mcp_server.py:22-28 | A configuration in the current directory always wins. |
| Config.DefaultTemplatesRender | obsidian_mcp_server.py:31-38 | Each built-in template renders to its heading, the title, the labelled timestamp, the project line, a blank line and the content, with every value inserted verbatim. |
| Template.Render | obsidian_mcp_server.py:146-151 | A template `format` accepts is the canonical text of a piece sequence, and the result is that sequence with each field replaced by its value. |
| Template.RenderUnparse | obsidian_mcp_server.py:146-151 | Conversely, the canonical text of any piece sequence renders to that sequence with its fields replaced. |
| Template.ParseUnparse | obsidian_mcp_server.py:146-151 | Every piece sequence written out canonically is parsed back to itself. |
| Template.UnparseParse | obsidian_mcp_server.py:146-151 | Every template `format` accepts is the canonical text of what it parses to, so the two are inverse bijections. |
| Template.ParseAppend | obsidian_mcp_server.py:146-151 | A well-formed template prefix parses the same way whatever text follows it. |
| Template.RenderEscape | obsidian_mcp_server.py:146-151 | Text with its braces doubled renders back to exactly that text. |
| Template.RenderCompose | obsidian_mcp_server.py:146-151 | A template built from literal text and fields renders to the literal text with each field's value inserted. |
| Template.RenderUnknownField | obsidian_mcp_server.py:146-151 | A field naming anything but the four keyword arguments makes `format` raise, whatever well-formed text comes before it. |
| Note.KeepOnly | obsidian_mcp_server.py:154 | The filter keeps only letters, digits, space, `-` and `_`, in their original order; it keeps every occurrence of each such character, so it changes nothing when all characters qualify. |
| Note.SafeTitle | obsidian_mcp_server.py:154 | The safe title is the filtered title minus its trailing whitespace: a prefix of the filtered characters followed there only by whitespace, ending in no whitespace, with no `/` or `.`. |
| Note.SafeTitleIdempotent | obsidian_mcp_server.py:154 | Sanitising a safe title again changes nothing. |
| Note.NoteFilename | obsidian_mcp_server.py:154-156 | The file name is the compact timestamp, `_`, the safe title, then `.md`. It has no `/`, and its only dot is the one before `md`. |
| Clock.CompactStampRoundTrip | obsidian_mcp_server.py:155 | The `%Y%m%d_%H%M%S` stamp reads back to the date and time it was made from. |
| Clock.CompactStamp | obsidian_mcp_server.py:155 | The `%Y%m%d_%H%M%S` stamp is eight digits, `_`, and six digits. |
| Clock.DisplayStamp | obsidian_mcp_server.py:140 | The `%Y-%m-%d %H:%M:%S` stamp is 19 characters with its separators in place. |
| Clock.DisplayStampRoundTrip | obsidian_mcp_server.py:140 | The displayed stamp reads back to the date and time of the reading. |
| Clock.IsoFormat | obsidian_mcp_server.py:66 | `isoformat()` is 19 characters, or 26 with microseconds, has `T` at index 10, and never holds a newline. |
| Clock.IsoFormatRoundTrip | obsidian_mcp_server.py:66 | The ISO form reads back to the date and time of the reading. |
| Clock.IsoFormatMicroseconds | obsidian_mcp_server.py:66 | Microseconds appear after a dot as six digits that read back to them, and only when they are not zero. |
| Clock.StampsAgree | obsidian_mcp_server.py:66-155 | The three renderings of one reading agree: the ISO form is the displayed stamp with `T` for the space, and the compact stamp is the displayed stamp's digits with `_` between date and time. |
| Note.ReadNoteFrontMatter | obsidian_mcp_server.py:64-74 | Front-matter followed by any body reads back as its creation time, its tag list and exactly that body. |
| Note.FrontMatterOfReadNote | obsidian_mcp_server.py:64-74 | Conversely, any text that reads as a note is exactly the front-matter of its fields followed by its body. |
| Note.NoteTags | obsidian_mcp_server.py:168-169 | The note's tags are `claude-code`, the content type and the lower-cased project name, followed by every user tag unchanged and in order. |
| Note.GenerateFrontmatter | obsidian_mcp_server.py:64-74 | The front-matter, followed by any body, reads back as the ISO creation time, the printed tag list and that body, provided the printed list holds no line break. |
| Note.Save | obsidian_mcp_server.py:131-187 | A save succeeds exactly when the template renders and the folder setting is a string. A template error is reported before any folder error. A successful save names `<vault>/<folder>/<file name>`. |
| Note.SaveWrites | obsidian_mcp_server.py:153-179 | A successful save writes into `<vault>/<folder>/<file name>`; its text is front-matter carrying the creation time and the combined tags, followed by the rendered body. |
| Note.PassthroughBody | obsidian_mcp_server.py:143-151 | With no template for the content type, the note body is the content, unchanged. |
| Note.RejectedTemplateFailsSave | obsidian_mcp_server.py:146-151 | A template that `format` rejects fails the whole save with that error. |
| Note.SelectDefault | obsidian_mcp_server.py:143 | Under the default configuration each known type gets its built-in template, any other type gets the pass-through, and the folder is "Claude Code". |
| Note.DefaultConfigBody | obsidian_mcp_server.py:143-151 | Under the default configuration the body always renders, to the built-in layout for the type. |
| Note.SaveWithDefaultConfig | obsidian_mcp_server.py:135-166 | Under the default configuration every save succeeds, and the note lands in `<vault>/Claude Code/<file name>`. |
| Note.CallArguments | obsidian_mcp_server.py:120-126 | The call's arguments are accepted exactly when they have the declared types. Missing ones default to content "", title "Untitled", type "note" and no tags. Supplied ones are passed on as given, the tags unchanged and in order. |
| Note.EmptyCallDefaults | obsidian_mcp_server.py:121-126 | A call with no arguments saves an empty "Untitled" note. |
| Note.HandleCallTool | obsidian_mcp_server.py:117-128 | Any tool name other than `save_to_obsidian` raises; that one runs the save against the configuration resolved from the current directory. |
| Hook.IsSubstringAt | hook.py:15 | For a string event, `"tool_output" in hook_data` holds exactly when the key occurs at some position of the text. |
| Hook.Contains | hook.py:15-22 | `key in data` is key membership for a dict and element membership for a list; it raises exactly when the event is a number, boolean or null. |
| Hook.ExtractResponseContent | hook.py:12-30 | An event that is a dictionary always yields content; a number, boolean or null raises; any other failure is a list or string lacking `.get`. |
| Hook.PayloadContent | hook.py:17-27 | A string payload is returned unchanged, and anything but a dictionary holding "content" yields text. |
| Hook.ToolOutputPrecedence | hook.py:15-20 | With `tool_output` present, the content comes from it and the rest of the event is ignored. |
| Hook.ResponseWithoutToolOutput | hook.py:22-27 | Without `tool_output`, the content comes from `response`. |
| Hook.FallbackDumpsEvent | hook.py:29-30 | With neither key present, the content is the JSON dump of the whole event. |
| Hook.PayloadContentCases | hook.py:17-27 | A dictionary payload gives its "content" entry, a string payload gives itself, and anything else gives its `str`. |
| Hook.TextMentioningKeyFails | hook.py:15-17 | An event that is a string containing `tool_output` passes the membership test and then fails on `.get`. |
| Hook.SkipThreshold | hook.py:39-42 | The response is skipped exactly when its stripped length is under 10 characters, and queued exactly otherwise. |
| Hook.BlankResponseSkipped | hook.py:39-42 | A response of whitespace alone is never queued. |
| Hook.QueuedShape | hook.py:44-58 | A queued request holds the extracted content, the file name `claude_response_<stamp>` and the two fixed tags. It goes to `~/.claude/mcp_queue/response_<stamp>.json`, and the stamp reads back to the clock reading. |
| Hook.HookMain | hook.py:33-63 | Input that is not JSON is reported as an error and never queued; a queue file always lies under the home directory. |
| Python.StripSlice | hook.py:40 | `strip()` returns the slice of the text after its leading whitespace, and only whitespace follows that slice. |
| Python.StripEmpty | hook.py:40 | Text strips to nothing exactly when every character of it is whitespace. |
| Installer.UpdateClaudeSettings | install.py:176-205 | An unreadable settings file is an error. A missing or malformed one always gives settings. Any settings produced register this server under `mcpServers["obsidian-claude-code"]`. |
| Installer.LoadSettings | install.py:180-190 | A missing or malformed settings file counts as empty settings, a parsed file is used as is, and only an unreadable file is an error. |
| Installer.MergeServer | install.py:192-205 | The merge succeeds exactly when the settings and their `mcpServers` entry are objects. Its result has the old top-level keys plus `mcpServers`. |
| Installer.MergeRegisters | install.py:196-205 | After the merge, `mcpServers["obsidian-claude-code"]` is the new server entry. |
| Installer.MergeKeepsTheRest | install.py:192-205 | Every other setting and every other registered server is unchanged, and no server is dropped. |
| Installer.MergeIdempotent | install.py:205 | Registering twice is the same as registering the second entry once. |
| Installer.FreshSettings | install.py:176-205 | Without usable settings, the result holds just the one server registration. |
| Installer.ReadVaultAnswer | install.py:121-127 | A suggestion is picked by the number typed, counting from 1, and only for numbers up to 3; any other answer is the stripped text as a path. |
| Installer.VaultAnswerCases | install.py:121-127 | The answer picks a suggestion exactly when its stripped text is a decimal number from 1 to 3; otherwise the stripped text is the path. |
| Installer.NumberPicksSuggestion | install.py:124-125 | Typing `n` for n from 1 to 3 picks the n-th suggested vault. |
| Installer.FolderChoice | install.py:230-233 | The folder is the stripped answer when that is not empty, and never empty. |
| Installer.BlankAnswerTakesDefault | install.py:230-233 | A blank folder answer takes `Projects/<directory name>`. |
| Installer.ProjectConfig | install.py:235-242 | The written configuration names the chosen folder. Reports, reviews and notes get their layouts with the directory name pasted in as written, and any other type gets the pass-through. |
| Installer.CreateProjectConfig | install.py:217-243 | A configuration is written exactly when the project has no `.claude/obsidian.json` yet. |
| Installer.SavesUseCreatedConfig | install.py:217-243 | The server then finds the new configuration and saves into the chosen folder. For a directory name without braces, a report, review or note renders its layout with the name shown as written, and other types keep the content. |
| Installer.BracedDirectoryFailsSaves | install.py:239-241 | Under the written configuration, a directory named `{x}` (x not one of the four placeholders) makes every report, review and note save fail with that unknown field. |
| Installer.CorrectedProjectConfig | install.py:235-242 | The intended configuration has the same folder and layouts, with the directory name's braces doubled. |
| Installer.CorrectedConfigServesEveryName | install.py:239-241 | Under the intended configuration, every directory name renders literally in reports, reviews and notes. |
| Installer.ProjectTemplateRenders | install.py:239-241 | Each project template, with the directory name escaped, renders for every directory name to its layout with the name inserted literally. |
| Installer.AsWrittenAgreesWithoutBraces | install.py:239-241 | For a directory name without braces, the template as written and the escaped one are the same text. |
| Installer.AsWrittenRejectsBracedName | install.py:239-241 | With the directory name pasted in unescaped, a name like `{x}` turns into a field, and every later save of that type raises. |
| Installer.BracedDirectoryBreaksNotes | install.py:241 | Concretely, for a directory named `{x}` the as-written note template fails to render, and the escaped one shows `{x}`. |

## Left out

- Reading and writing files, creating directories, standard input and output, and the MCP protocol runtime: the model takes what they would return as parameters and returns what would be written.
- `get_vault_path` (obsidian_mcp_server.py:51-61): the vault path is a parameter, because it comes from the environment and the file system.
- `handle_list_tools` and the server's `main`: static tool metadata and transport.
- `install_mcp_server`, `get_claude_config_dir`, the installer's `main`, dependency checks and colour printing: copying, permissions and console output only.
- The `.bak` backup of a malformed settings file (install.py:186-187): a file copy with no effect on the settings computed.
- The vault prompt loop (install.py:120-139): it repeats until the chosen path exists or is created, which depends on the file system. Only the reading of one answer is modelled.
- `Path.expanduser` of a typed vault path: left to the host; the model keeps the stripped text.
- Installer.ReadVaultAnswer: treats only ASCII digits as a number, because `str.isdigit` also accepts other Unicode digits, which `int` may reject.
- Note.CallArguments: a supplied argument of the wrong JSON type is reported as `BadArgument`. Python would pass it on, and `format` or the path join would then raise or print it.
- Template.Render: a known field name followed by a conversion, format spec, attribute or index is reported as `UnsupportedField`, not rendered; the templates here never use them. A field ends at its first `}`, whereas Python skips `[...]` and nested braces in a format spec. A malformed field body is reported as `UnknownField`, e.g. `{a{b}` or `{x!}`, where Python raises `ValueError` while parsing. Outside `UnsupportedField`, the model rejects exactly the templates Python rejects, at the same field, and an accepted template renders alike; only the kind of error can differ.
- Clock: the source reads the clock up to three times per save; the model uses one reading for the display stamp, the file name and the front-matter.
- Clock.CompactStamp: `%Y` is written with four digits for every year, whereas `strftime` on some platforms prints years below 1000 with fewer digits; `isoformat` always pads to four.
- The order of keys in a written JSON object: JSON objects are maps here.
- JSON numbers are integers: a fractional number in an event payload or in the settings file cannot be represented. Every modelled branch treats a number opaquely: it is passed on, printed through the host's `str`, or rejected by type.
- Path joining follows `pathlib` only for relative parts: a folder setting that is an absolute path would replace the vault, and the model always joins.

Two behaviours of the code that the model keeps:
- A template naming an unknown placeholder makes `format` raise (obsidian_mcp_server.py:146-151); the placeholder is not left in the text.
- `.md` is appended to every file name, whatever the title ends in (obsidian_mcp_server.py:156).

## Findings

| source | as written | input that shows it | evidently intended | confidence | as-written member | corrected member |
|---|---|---|---|---|---|---|
| install.py:239-241 | The project directory name is pasted into each template with an f-string, so braces in it become part of the `format` template. | A project directory named `{x}`: every later save of that content type raises `KeyError: 'x'`, because the template now names an unknown field. | The directory name appears literally in the note; its braces would need doubling. | not executed | Installer.BracedDirectoryFailsSaves | Installer.CorrectedConfigServesEveryName |

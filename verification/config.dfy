/** Finding the project configuration: `.claude/obsidian.json` in the working
    directory or its nearest ancestor, else a built-in default. */
module Config {
  import opened Results
  import opened Json
  import opened Template

  /** A directory as its segments from the filesystem root; `[]` is the root. */
  type Path = seq<string>

  /** What reading `<dir>/.claude/obsidian.json` gives, for every directory. */
  type Disk = map<Path, Loaded>

  function Probe(disk: Disk, dir: Path): Loaded {
    if dir in disk then disk[dir] else Absent
  }

  /** The directory `k` levels above `cwd`. */
  function Ancestor(cwd: Path, k: nat): Path
    requires k <= |cwd|
  {
    cwd[..|cwd| - k]
  }

  /** `[cwd] + list(cwd.parents)`: the working directory, then each parent
      outward, ending at the root. */
  function Candidates(cwd: Path): (r: seq<Path>)
    ensures |r| == |cwd| + 1
    ensures forall k :: 0 <= k < |r| ==> r[k] == Ancestor(cwd, k)
    decreases |cwd|
  {
    if cwd == [] then [[]]
    else
      var rest := Candidates(cwd[..|cwd| - 1]);
      assert forall k :: 0 <= k < |rest| ==> rest[k] == cwd[..|cwd| - 1 - k];
      [cwd] + rest
  }

  const DefaultFolder := "Claude Code"

  /** The shape shared by the built-in templates: literal text `a`, the
      title, text `b`, the timestamp, text `c`, the project, text `d`, then
      the content. */
  function Layout(a: string, b: string, c: string, d: string): seq<Segment> {
    [Text(a), Hole(Title), Text(b), Hole(Timestamp), Text(c), Hole(Project), Text(d), Hole(Content)]
  }

  /** The template text of a layout. */
  function LayoutTemplate(a: string, b: string, c: string, d: string): string {
    a + (Slot(Title) + (b + (Slot(Timestamp) + (c + (Slot(Project) + (d + Slot(Content)))))))
  }

  /** The text a layout renders to. */
  function LayoutText(a: string, b: string, c: string, d: string, v: Vars): string {
    a + (v.title + (b + (v.timestamp + (c + (v.project + (d + v.content))))))
  }

  /** The line labelling the timestamp in the report and review templates. */
  const GeneratedLine := "\n\n**Generated:** "

  /** The line labelling the timestamp in the note template. */
  const CreatedLine := "\n\n**Created:** "

  const ProjectLine := "\n**Project:** "

  const BlankLine := "\n\n"

  /** A heading with the title, the labelled timestamp, the project, then the content. */
  function DefaultTemplate(heading: string, stampLine: string): string {
    LayoutTemplate(heading, stampLine, ProjectLine, BlankLine)
  }

  function DefaultReport(): string { DefaultTemplate("# ", GeneratedLine) }

  function DefaultReview(): string { DefaultTemplate("# Code Review: ", GeneratedLine) }

  function DefaultNote(): string { DefaultTemplate("# ", CreatedLine) }

  /** The template text of a layout is the composition of its segments
      whenever the literal parts hold no brace. */
  lemma LayoutCompose(a: string, b: string, c: string, d: string)
    requires BraceFree(a) && BraceFree(b) && BraceFree(c) && BraceFree(d)
    ensures Compose(Layout(a, b, c, d)) == LayoutTemplate(a, b, c, d)
  {
    var s8: seq<Segment> := [];
    var s7 := [Hole(Content)] + s8;
    var s6 := [Text(d)] + s7;
    var s5 := [Hole(Project)] + s6;
    var s4 := [Text(c)] + s5;
    var s3 := [Hole(Timestamp)] + s4;
    var s2 := [Text(b)] + s3;
    var s1 := [Hole(Title)] + s2;
    var s0 := [Text(a)] + s1;
    assert Layout(a, b, c, d) == s0;
    assert Compose(s7) == Slot(Content) by { ComposeCons(Hole(Content), s8); assert Slot(Content) + "" == Slot(Content); }
    assert Compose(s6) == d + Slot(Content) by { EscapeBraceFree(d); ComposeCons(Text(d), s7); }
    assert Compose(s5) == Slot(Project) + (d + Slot(Content)) by { ComposeCons(Hole(Project), s6); }
    assert Compose(s4) == c + (Slot(Project) + (d + Slot(Content))) by { EscapeBraceFree(c); ComposeCons(Text(c), s5); }
    assert Compose(s3) == Slot(Timestamp) + (c + (Slot(Project) + (d + Slot(Content)))) by { ComposeCons(Hole(Timestamp), s4); }
    assert Compose(s2) == b + (Slot(Timestamp) + (c + (Slot(Project) + (d + Slot(Content))))) by { EscapeBraceFree(b); ComposeCons(Text(b), s3); }
    assert Compose(s1) == Slot(Title) + (b + (Slot(Timestamp) + (c + (Slot(Project) + (d + Slot(Content)))))) by { ComposeCons(Hole(Title), s2); }
    assert Compose(s0) == a + (Slot(Title) + (b + (Slot(Timestamp) + (c + (Slot(Project) + (d + Slot(Content))))))) by { EscapeBraceFree(a); ComposeCons(Text(a), s1); }
  }

  lemma LayoutFill(a: string, b: string, c: string, d: string, v: Vars)
    ensures Fill(Layout(a, b, c, d), v) == LayoutText(a, b, c, d, v)
  {
    var s8: seq<Segment> := [];
    var s7 := [Hole(Content)] + s8;
    var s6 := [Text(d)] + s7;
    var s5 := [Hole(Project)] + s6;
    var s4 := [Text(c)] + s5;
    var s3 := [Hole(Timestamp)] + s4;
    var s2 := [Text(b)] + s3;
    var s1 := [Hole(Title)] + s2;
    var s0 := [Text(a)] + s1;
    assert Layout(a, b, c, d) == s0;
    assert Fill(s7, v) == v.content by { FillCons(Hole(Content), s8, v); assert v.content + "" == v.content; }
    assert Fill(s6, v) == d + v.content by { FillCons(Text(d), s7, v); }
    assert Fill(s5, v) == v.project + (d + v.content) by { FillCons(Hole(Project), s6, v); }
    assert Fill(s4, v) == c + (v.project + (d + v.content)) by { FillCons(Text(c), s5, v); }
    assert Fill(s3, v) == v.timestamp + (c + (v.project + (d + v.content))) by { FillCons(Hole(Timestamp), s4, v); }
    assert Fill(s2, v) == b + (v.timestamp + (c + (v.project + (d + v.content)))) by { FillCons(Text(b), s3, v); }
    assert Fill(s1, v) == v.title + (b + (v.timestamp + (c + (v.project + (d + v.content))))) by { FillCons(Hole(Title), s2, v); }
    assert Fill(s0, v) == a + (v.title + (b + (v.timestamp + (c + (v.project + (d + v.content)))))) by { FillCons(Text(a), s1, v); }
  }

  /** A layout template renders to its literal parts with the values
      inserted as given. */
  lemma LayoutRenders(a: string, b: string, c: string, d: string, v: Vars)
    requires BraceFree(a) && BraceFree(b) && BraceFree(c) && BraceFree(d)
    ensures Render(LayoutTemplate(a, b, c, d), v) == Success(LayoutText(a, b, c, d, v))
  {
    LayoutCompose(a, b, c, d);
    RenderCompose(Layout(a, b, c, d), v);
    LayoutFill(a, b, c, d, v);
  }

  /** The configuration used when no project file applies. */
  function DefaultConfig(): Value {
    Object(map[
      "folder" := String(DefaultFolder),
      "templates" := Object(map[
        "report" := String(DefaultReport()),
        "review" := String(DefaultReview()),
        "note" := String(DefaultNote())])])
  }

  /** The configuration a found file supplies: its content when it loads,
      the default when opening or parsing it raises. */
  function FromFile(f: Loaded): Value {
    if f.Parsed? then f.value else DefaultConfig()
  }

  /** `k` levels up is the first candidate holding a configuration file. */
  ghost predicate IsNearest(cwd: Path, disk: Disk, k: nat) {
    && k <= |cwd|
    && !Probe(disk, Ancestor(cwd, k)).Absent?
    && forall j :: 0 <= j < k ==> Probe(disk, Ancestor(cwd, j)).Absent?
  }

  /** `get_project_config`: walks the candidates in order and stops at the
      first that has a configuration file. */
  method GetProjectConfig(cwd: Path, disk: Disk) returns (config: Value)
    ensures forall k :: IsNearest(cwd, disk, k) ==> config == FromFile(Probe(disk, Ancestor(cwd, k)))
    ensures (forall k :: 0 <= k <= |cwd| ==> Probe(disk, Ancestor(cwd, k)).Absent?)
            ==> config == DefaultConfig()
    ensures config == Resolve(cwd, disk)
  {
    var candidates := Candidates(cwd);
    var i := 0;
    while i < |candidates|
      invariant 0 <= i <= |candidates|
      invariant forall j :: 0 <= j < i ==> Probe(disk, Ancestor(cwd, j)).Absent?
    {
      var found := Probe(disk, candidates[i]);
      if !found.Absent? {
        NearestUnique(cwd, disk, i);
        ResolveNearest(cwd, disk, i);
        return FromFile(found);
      }
      i := i + 1;
    }
    ResolveNone(cwd, disk);
    return DefaultConfig();
  }

  /** The same search, by recursion on the working directory. */
  function Resolve(cwd: Path, disk: Disk): Value
    decreases |cwd|
  {
    var found := Probe(disk, cwd);
    if !found.Absent? then FromFile(found)
    else if cwd == [] then DefaultConfig()
    else Resolve(cwd[..|cwd| - 1], disk)
  }

  lemma NearestUnique(cwd: Path, disk: Disk, k: nat)
    requires IsNearest(cwd, disk, k)
    ensures forall j :: IsNearest(cwd, disk, j) ==> j == k
  {
  }

  lemma AncestorOfParent(cwd: Path, k: nat)
    requires 0 < |cwd| && k < |cwd|
    ensures Ancestor(cwd[..|cwd| - 1], k) == Ancestor(cwd, k + 1)
  {
  }

  /** The nearest configuration file decides; farther ancestors are not read. */
  lemma {:induction false} ResolveNearest(cwd: Path, disk: Disk, k: nat)
    requires IsNearest(cwd, disk, k)
    ensures Resolve(cwd, disk) == FromFile(Probe(disk, Ancestor(cwd, k)))
    decreases |cwd|
  {
    if k > 0 {
      assert Ancestor(cwd, 0) == cwd;
      var parent := cwd[..|cwd| - 1];
      AncestorOfParent(cwd, k - 1);
      forall j | 0 <= j < k - 1 ensures Probe(disk, Ancestor(parent, j)).Absent? {
        AncestorOfParent(cwd, j);
      }
      ResolveNearest(parent, disk, k - 1);
    } else {
      assert Ancestor(cwd, 0) == cwd;
    }
  }

  /** With no configuration file on the way to the root, the default applies. */
  lemma {:induction false} ResolveNone(cwd: Path, disk: Disk)
    requires forall k :: 0 <= k <= |cwd| ==> Probe(disk, Ancestor(cwd, k)).Absent?
    ensures Resolve(cwd, disk) == DefaultConfig()
    decreases |cwd|
  {
    assert Ancestor(cwd, 0) == cwd;
    if cwd != [] {
      var parent := cwd[..|cwd| - 1];
      forall j | 0 <= j <= |parent| ensures Probe(disk, Ancestor(parent, j)).Absent? {
        AncestorOfParent(cwd, j);
      }
      ResolveNone(parent, disk);
    }
  }

  /** Two disks that agree on the candidates up to the nearest file give the
      same configuration, whatever lies farther up. */
  lemma FartherAncestorsIgnored(cwd: Path, disk: Disk, other: Disk, k: nat)
    requires IsNearest(cwd, disk, k)
    requires forall j :: 0 <= j <= k ==> Probe(other, Ancestor(cwd, j)) == Probe(disk, Ancestor(cwd, j))
    ensures Resolve(cwd, other) == Resolve(cwd, disk)
  {
    ResolveNearest(cwd, disk, k);
    ResolveNearest(cwd, other, k);
  }

  /** A nearest file that cannot be read or parsed yields the default: the
      search does not go on to a farther ancestor. */
  lemma MalformedNearestUsesDefault(cwd: Path, disk: Disk, k: nat)
    requires IsNearest(cwd, disk, k) && !Probe(disk, Ancestor(cwd, k)).Parsed?
    ensures Resolve(cwd, disk) == DefaultConfig()
  {
    ResolveNearest(cwd, disk, k);
  }

  /** A configuration file in the working directory itself always wins. */
  lemma OwnConfigWins(cwd: Path, disk: Disk, config: Value)
    ensures Resolve(cwd, disk[cwd := Parsed(config)]) == config
  {
  }

  /** The text a built-in template renders to. */
  function DefaultRendering(heading: string, stampLine: string, v: Vars): string {
    LayoutText(heading, stampLine, ProjectLine, BlankLine, v)
  }

  /** Each built-in template renders to its heading, timestamp line, project
      line and content, every value inserted as given. */
  lemma DefaultTemplatesRender(v: Vars)
    ensures Render(DefaultReport(), v) == Success(DefaultRendering("# ", GeneratedLine, v))
    ensures Render(DefaultReview(), v) == Success(DefaultRendering("# Code Review: ", GeneratedLine, v))
    ensures Render(DefaultNote(), v) == Success(DefaultRendering("# ", CreatedLine, v))
  {
    assert BraceFree("# ") && BraceFree("# Code Review: ");
    assert BraceFree(GeneratedLine) && BraceFree(CreatedLine);
    assert BraceFree(ProjectLine) && BraceFree(BlankLine);
    LayoutRenders("# ", GeneratedLine, ProjectLine, BlankLine, v);
    LayoutRenders("# Code Review: ", GeneratedLine, ProjectLine, BlankLine, v);
    LayoutRenders("# ", CreatedLine, ProjectLine, BlankLine, v);
  }
}

/** The HTML writer of sphinxcontrib/shoebot.py: `render_shoebot` turns the code
    of a `shoebot` node into an image file (reusing a file of the same name
    when one exists), and `render_shoebot_html` links that file from the page
    body. The drawing engine (the `shoebot` package) is not modelled; what the
    extension asks of it is recorded as a log of calls, and whether it raises
    or leaves its output behind is a parameter. */
module Render {
  import opened Wrappers
  import opened PyStrings
  import opened PyValues
  import opened Directive
  import opened Naming

  /* ------------------------------------------------------------ the engine */

  /** One call the extension makes on the drawing engine. */
  datatype EngineCall =
    | CreateBot(format: string, outfn: string)  // create_bot(buff=<outfn opened "wb">, format=format)
    | Size(args: seq<PyValue>)                  // bot.size(*size)
    | Background(level: int)                    // bot.background(1)
    | Ximport(library: PyValue)                 // bot.ximport(libname)
    | RunCode(code: string)                     // bot.run(code)

  /** How the engine behaves on one rendering: it raises at call number `step`
      (counting from 0), or it takes every call. Either way `leavesFile` says
      whether the output file opened for it is still a file once the `with`
      block is left: the page's code run by `bot.run` may remove it, and then
      raise or return. */
  datatype Engine =
    | RaisesAt(step: nat, message: string, leavesFile: bool)
    | Completes(leavesFile: bool)

  /** The errors `render_shoebot_html` reports as warnings. */
  datatype ShoebotError =
    | BadOutputFormat(format: string)
    | NoOutputFile(cwd: string, outfn: string)

  /** What a rendering can raise: a `ShoebotError`, a `TypeError` about a value
      it could not use (a size or an ximports option that is not iterable, a
      docname that is not text), or whatever the engine raised. */
  datatype Exception =
    | Shoebot(error: ShoebotError)
    | TypeError(value: PyValue)
    | EngineException(message: string)

  /** The calls a rendering plans to make, and the exception the extension
      raises itself after the last of them, if any. */
  datatype Plan = Plan(calls: seq<EngineCall>, raised: Option<Exception>)

  /** A plan with one more call in front. */
  function Cons(c: EngineCall, p: Plan): Plan {
    Plan([c] + p.calls, p.raised)
  }

  /** One `ximport` call per library, in order. */
  function Imports(libs: seq<PyValue>): (r: seq<EngineCall>)
    ensures |r| == |libs|
    ensures forall i :: 0 <= i < |libs| ==> r[i] == Ximport(libs[i])
  {
    seq(|libs|, i requires 0 <= i < |libs| => Ximport(libs[i]))
  }

  /** The body of `with open(outfn, "wb")`: the bot is created, sized with the
      items of `size`, given a background, handed each library of `ximports`,
      and run on the code. Unpacking a size or iterating ximports that is not
      iterable raises a `TypeError` before the call that needed it. */
  function EnginePlan(format: string, outfn: string, size: PyValue, ximports: PyValue, code: string): (p: Plan)
    ensures p.raised == None || p.raised.value.TypeError?
  {
    Cons(CreateBot(format, outfn), AfterCreate(size, ximports, code))
  }

  /** What follows the creation of the bot: `bot.size(*size)` and
      `bot.background(1)`, or the `TypeError` of a size that does not
      iterate. */
  function AfterCreate(size: PyValue, ximports: PyValue, code: string): (p: Plan)
    ensures p.raised == None || p.raised.value.TypeError?
  {
    match Items(size)
    case None => Plan([], Some(TypeError(size)))
    case Some(args) => Cons(Size(args), Cons(Background(1), AfterSetup(ximports, code)))
  }

  /** What follows the setup: the libraries and the code, or the `TypeError`
      of libraries that do not iterate. */
  function AfterSetup(ximports: PyValue, code: string): (p: Plan)
    ensures p.raised == None || p.raised.value.TypeError?
  {
    match Items(ximports)
    case None => Plan([], Some(TypeError(ximports)))
    case Some(libs) => Plan(Script(libs, code), None)
  }

  /** The calls after the setup: the libraries, then the code. */
  function Script(libs: seq<PyValue>, code: string): seq<EngineCall> {
    Imports(libs) + [RunCode(code)]
  }

  /** Carrying out a plan whose first call is the engine's call number
      `first`: the engine takes the calls up to and including the one it
      raises at, and its exception replaces the rest of the plan. */
  function PerformFrom(p: Plan, engine: Engine, first: nat): Plan {
    if engine.RaisesAt? && first <= engine.step < first + |p.calls| then
      Plan(p.calls[..engine.step - first + 1], Some(EngineException(engine.message)))
    else p
  }

  /** Carrying out a whole plan. */
  function Perform(p: Plan, engine: Engine): (q: Plan)
    ensures |q.calls| <= |p.calls| && q.calls == p.calls[..|q.calls|]
    ensures q.raised == None <==> p.raised == None && !(engine.RaisesAt? && engine.step < |p.calls|)
    ensures engine.RaisesAt? && engine.step < |p.calls| ==>
              |q.calls| == engine.step + 1 && q.raised == Some(EngineException(engine.message))
    ensures !(engine.RaisesAt? && engine.step < |p.calls|) ==> q == p
    ensures q.raised.Some? ==> q.raised.value.EngineException? || q.raised == p.raised
  {
    PerformFrom(p, engine, 0)
  }

  /** Carrying out a plan one call at a time: an engine that raises at the
      first call takes only it; otherwise the rest is carried out from the
      next call number. */
  lemma PerformCons(c: EngineCall, p: Plan, engine: Engine, first: nat)
    requires !(engine.RaisesAt? && engine.step < first)
    ensures PerformFrom(Cons(c, p), engine, first)
            == if engine.RaisesAt? && engine.step == first then Plan([c], Some(EngineException(engine.message)))
               else Cons(c, PerformFrom(p, engine, first + 1))
  {
    if engine.RaisesAt? && first < engine.step < first + 1 + |p.calls| {
      assert ([c] + p.calls)[..engine.step - first + 1] == [c] + p.calls[..engine.step - first];
    }
  }

  /** The plan starts with the creation of the bot: an engine that raises
      there takes only that call; otherwise what follows it is carried out
      from call number 1. */
  lemma PerformCreate(format: string, outfn: string, size: PyValue, ximports: PyValue, code: string, engine: Engine)
    ensures PerformFrom(EnginePlan(format, outfn, size, ximports, code), engine, 0)
            == if engine.RaisesAt? && engine.step == 0 then Plan([CreateBot(format, outfn)], Some(EngineException(engine.message)))
               else Cons(CreateBot(format, outfn), PerformFrom(AfterCreate(size, ximports, code), engine, 1))
  {
    PerformCons(CreateBot(format, outfn), AfterCreate(size, ximports, code), engine, 0);
  }

  /** A rendering whose options iterate makes, when the engine completes, the
      calls create, size, background, one ximport per library, run, in that
      order, and raises nothing itself. */
  lemma EnginePlanComplete(format: string, outfn: string, size: PyValue, ximports: PyValue, code: string)
    requires Items(size).Some? && Items(ximports).Some?
    ensures var p := EnginePlan(format, outfn, size, ximports, code);
            var libs := Items(ximports).value;
            && p.raised == None
            && |p.calls| == 4 + |libs|
            && p.calls[0] == CreateBot(format, outfn)
            && p.calls[1] == Size(Items(size).value)
            && p.calls[2] == Background(1)
            && (forall i :: 0 <= i < |libs| ==> p.calls[3 + i] == Ximport(libs[i]))
            && p.calls[3 + |libs|] == RunCode(code)
  {
  }

  /** The code reaches the engine exactly when the options iterate and the
      engine does not raise first; it is then the last call. */
  lemma CodeRunsUnlessRaised(format: string, outfn: string, size: PyValue, ximports: PyValue, code: string, engine: Engine)
    ensures var q := Perform(EnginePlan(format, outfn, size, ximports, code), engine);
            (q.raised == None <==>
               Items(size).Some? && Items(ximports).Some?
               && !(engine.RaisesAt? && engine.step <= 3 + |Items(ximports).value|))
            && (q.raised == None ==> q.calls[|q.calls| - 1] == RunCode(code))
  {
    var p := EnginePlan(format, outfn, size, ximports, code);
    if Items(size).Some? && Items(ximports).Some? {
      EnginePlanComplete(format, outfn, size, ximports, code);
    }
  }

  /** A prefix that ends inside the first part of a concatenation. */
  lemma PrefixInFirst<T>(a: seq<T>, b: seq<T>, k: nat)
    requires k <= |a|
    ensures (a + b)[..k] == a[..k]
  {
  }

  /* ------------------------------------------------------- render_shoebot */

  /** What the translator knows of its builder. */
  datatype Builder = Builder(
    imgpath: string,
    outdir: string,
    imagedir: string,
    srcdir: string,
    outputFormat: string)

  /** Where the document links the image and where the file is written. */
  datatype Paths = Paths(relfn: string, outfn: string)

  /** `options.get(key, default)`. */
  function Get(options: map<string, PyValue>, key: string, default: PyValue): PyValue {
    if key in options then options[key] else default
  }

  const DefaultSize := PyTuple([PyInt(100), PyInt(100)])

  /** The directory the engine runs in: that of the `filename` when one is
      given and not empty, otherwise that of the document; the docname itself
      when it is not text (`path.join` raises `TypeError`). */
  function WorkDir(b: Builder, options: map<string, PyValue>, filename: Option<string>): Result<string, PyValue> {
    if filename.Some? && filename.value != [] then Ok(Dirname(PathJoin(b.srcdir, filename.value)))
    else
      var docname := Get(options, "docname", PyStr("index"));
      if docname.PyStr? then Ok(Dirname(PathJoin(b.srcdir, docname.s)))
      else Err(docname)
  }

  /** The paths a rendering names: both end in `prefix-<digest>.<format>`. */
  function RenderPaths(b: Builder, sha1: seq<byte> -> Sha1Digest, code: string, format: string, prefix: string): Paths {
    var fname := OutputName(sha1, prefix, code, format);
    Paths(RelFn(b.imgpath, fname), OutFn(b.outdir, b.imagedir, fname))
  }

  /** The outcome of one `render_shoebot`, and the calls, files and working
      directory it leaves. */
  datatype Rendering = Rendering(
    result: Result<Paths, Exception>,
    calls: seq<EngineCall>,
    files: set<string>,
    cwd: string)

  /** `render_shoebot` once the output name is chosen, on a file system
      holding `files` with working directory `cwd`: an existing file of the
      output name is returned untouched. Otherwise, unless the working
      directory cannot be computed, the output file is opened (and so
      created), the engine runs in that directory, and a file still present
      afterwards is returned. When anything raises inside the `with` block the
      working directory is not changed back, and the file opened stays behind
      unless the engine removed it. */
  function Attempt(paths: Paths, workDir: Result<string, PyValue>, plan: Plan,
                   files: set<string>, cwd: string, engine: Engine): Rendering
  {
    if paths.outfn in files then Rendering(Ok(paths), [], files, cwd)
    else
      match workDir
      case Err(docname) => Rendering(Err(TypeError(docname)), [], files, cwd)
      case Ok(wd) => InDirectory(paths, wd, plan, files, cwd, engine)
  }

  /** The output file opened, the engine run in directory `wd`, and the file
      looked for once the working directory is restored. */
  function InDirectory(paths: Paths, wd: string, plan: Plan, files: set<string>, cwd: string,
                       engine: Engine): Rendering
  {
    var outfn := paths.outfn;
    var q := Perform(plan, engine);
    var after := if engine.leavesFile then files + {outfn} else files - {outfn};
    if q.raised.Some? then Rendering(Err(q.raised.value), q.calls, after, wd)
    else if !engine.leavesFile then Rendering(Err(Shoebot(NoOutputFile(cwd, outfn))), q.calls, after, cwd)
    else Rendering(Ok(paths), q.calls, after, cwd)
  }

  /** `render_shoebot(self, code, options, format, prefix, filename)`. */
  function RenderEffect(b: Builder, sha1: seq<byte> -> Sha1Digest, files: set<string>, cwd: string,
                        code: string, options: map<string, PyValue>, format: string, prefix: string,
                        filename: Option<string>, engine: Engine): Rendering
  {
    var paths := RenderPaths(b, sha1, code, format, prefix);
    var size := Get(options, "size", DefaultSize);
    var ximports := Get(options, "ximports", PyList([]));
    Attempt(paths, WorkDir(b, options, filename), EnginePlan(format, paths.outfn, size, ximports, code),
            files, cwd, engine)
  }

  /** A file of the output name is a cache hit: returned as is, with no call
      on the engine and nothing changed. */
  lemma CacheHit(paths: Paths, workDir: Result<string, PyValue>, plan: Plan,
                 files: set<string>, cwd: string, engine: Engine)
    requires paths.outfn in files
    ensures Attempt(paths, workDir, plan, files, cwd, engine) == Rendering(Ok(paths), [], files, cwd)
  {
  }

  /** Every attempt that reaches an engine leaving the output file in place
      leaves that file behind, so the next attempt at the same name is a cache
      hit, with the same paths and no engine call, even when the first one
      raised. */
  lemma AttemptLeavesCachedFile(paths: Paths, workDir: Result<string, PyValue>, plan: Plan,
                                files: set<string>, cwd: string, engine: Engine,
                                workDir2: Result<string, PyValue>, plan2: Plan, engine2: Engine)
    requires workDir.Ok?
    requires engine.leavesFile
    ensures var r1 := Attempt(paths, workDir, plan, files, cwd, engine);
            && paths.outfn in r1.files
            && Attempt(paths, workDir2, plan2, r1.files, r1.cwd, engine2) == Rendering(Ok(paths), [], r1.files, r1.cwd)
  {
  }

  /** An attempt that reaches an engine removing the output file leaves no
      file, whether the engine raised or returned; so the next attempt at the
      same name is no cache hit and runs its engine again. */
  lemma AttemptRemovedFileRendersAgain(paths: Paths, workDir: Result<string, PyValue>, plan: Plan,
                                       files: set<string>, cwd: string, engine: Engine,
                                       workDir2: Result<string, PyValue>, plan2: Plan, engine2: Engine)
    requires paths.outfn !in files && workDir.Ok? && workDir2.Ok?
    requires !engine.leavesFile
    ensures var r1 := Attempt(paths, workDir, plan, files, cwd, engine);
            && paths.outfn !in r1.files
            && r1.result.Err?
            && Attempt(paths, workDir2, plan2, r1.files, r1.cwd, engine2)
               == InDirectory(paths, workDir2.value, plan2, r1.files, r1.cwd, engine2)
  {
  }

  /** An attempt whose plan raises nothing but `TypeError` returns, or fails
      its post-check, with the working directory it found; so does one whose
      working directory cannot be computed. Any exception inside the `with`
      block, the engine's or the `TypeError` of an option that does not
      iterate, leaves it before `os.chdir(_cwd)`, so the working directory
      stays the one the engine ran in. */
  lemma AttemptCwd(paths: Paths, workDir: Result<string, PyValue>, plan: Plan,
                   files: set<string>, cwd: string, engine: Engine)
    requires plan.raised == None || plan.raised.value.TypeError?
    ensures var r := Attempt(paths, workDir, plan, files, cwd, engine);
            && (r.result.Ok? ==> r.cwd == cwd)
            && (r.result.Err? && r.result.error.Shoebot? ==> r.cwd == cwd)
            && (r.result.Err? && r.result.error.EngineException? ==> workDir == Ok(r.cwd))
            && (r.result.Err? && r.result.error.TypeError? && workDir.Ok? && paths.outfn !in files ==> r.cwd == workDir.value)
            && (workDir.Err? ==> r.cwd == cwd)
  {
  }

  /** The post-check fails exactly for a fresh name, a working directory,
      a plan that raises nothing itself, and an engine that takes every call
      and leaves no file; its message names the working directory the
      rendering started in and the output file. */
  lemma AttemptPostCheck(paths: Paths, workDir: Result<string, PyValue>, plan: Plan,
                         files: set<string>, cwd: string, engine: Engine)
    requires plan.raised == None || plan.raised.value.TypeError?
    ensures var r := Attempt(paths, workDir, plan, files, cwd, engine);
            r.result.Err? && r.result.error.Shoebot? <==>
              && paths.outfn !in files && workDir.Ok? && plan.raised == None
              && !(engine.RaisesAt? && engine.step < |plan.calls|) && !engine.leavesFile
    ensures var r := Attempt(paths, workDir, plan, files, cwd, engine);
            r.result.Err? && r.result.error.Shoebot? ==> r.result.error.error == NoOutputFile(cwd, paths.outfn)
  {
  }

  /** A rendering that reaches an engine leaving the output file in place,
      whether it raises or not, leaves that file; so a rendering after it of
      the same code is a cache hit that returns the same paths. */
  lemma RenderLeavesCachedFile(b: Builder, sha1: seq<byte> -> Sha1Digest, files: set<string>, cwd: string,
                               code: string, options: map<string, PyValue>, format: string, prefix: string,
                               filename: Option<string>, engine: Engine, engine2: Engine)
    requires WorkDir(b, options, filename).Ok?
    requires engine.leavesFile
    ensures var r1 := RenderEffect(b, sha1, files, cwd, code, options, format, prefix, filename, engine);
            RenderEffect(b, sha1, r1.files, r1.cwd, code, options, format, prefix, filename, engine2)
              == Rendering(Ok(RenderPaths(b, sha1, code, format, prefix)), [], r1.files, r1.cwd)
  {
    var paths := RenderPaths(b, sha1, code, format, prefix);
    var plan := EnginePlan(format, paths.outfn, Get(options, "size", DefaultSize), Get(options, "ximports", PyList([])), code);
    AttemptLeavesCachedFile(paths, WorkDir(b, options, filename), plan, files, cwd, engine,
                            WorkDir(b, options, filename), plan, engine2);
  }

  /** A node built by `Shoebot.run` carries only its docname in its options, so
      its rendering uses the default size 100 by 100 and no library, and an
      engine that completes is called exactly four times. */
  lemma RunNodeRendersWithDefaults(b: Builder, sha1: seq<byte> -> Sha1Digest, files: set<string>, cwd: string,
                                   code: string, docname: string, format: string, prefix: string, leavesFile: bool)
    requires RenderPaths(b, sha1, code, format, prefix).outfn !in files
    ensures var outfn := RenderPaths(b, sha1, code, format, prefix).outfn;
            RenderEffect(b, sha1, files, cwd, code, NodeOptions(docname), format, prefix, None, Completes(leavesFile)).calls
              == [CreateBot(format, outfn), Size([PyInt(100), PyInt(100)]), Background(1), RunCode(code)]
  {
    var paths := RenderPaths(b, sha1, code, format, prefix);
    NodeOptionsDefaults(b, docname);
    DefaultPlan(format, paths.outfn, code);
  }

  /** A node's options give neither a size nor libraries, and name a
      directory to run in. */
  lemma NodeOptionsDefaults(b: Builder, docname: string)
    ensures Get(NodeOptions(docname), "size", DefaultSize) == DefaultSize
    ensures Get(NodeOptions(docname), "ximports", PyList([])) == PyList([])
    ensures WorkDir(b, NodeOptions(docname), None) == Ok(Dirname(PathJoin(b.srcdir, docname)))
  {
    assert "size" != "docname" && "ximports" != "docname";
  }

  /** With the default size and no libraries the plan is the four calls, and
      an engine that completes makes them all. */
  lemma DefaultPlan(format: string, outfn: string, code: string)
    ensures var plan := EnginePlan(format, outfn, DefaultSize, PyList([]), code);
            && plan == Plan([CreateBot(format, outfn), Size([PyInt(100), PyInt(100)]), Background(1), RunCode(code)], None)
            && forall leavesFile: bool :: Perform(plan, Completes(leavesFile)) == plan
  {
    assert Items(DefaultSize) == Some([PyInt(100), PyInt(100)]);
    assert Items(PyList([])) == Some([]);
    assert Imports([]) == [];
  }

  /* -------------------------------------------------- render_shoebot_html */

  /** `[imgcls, 'shoebot'] + node['classes']` with `None` and empty names
      filtered out. */
  function ClassNames(imgcls: Option<string>, classes: seq<string>): seq<string> {
    DropEmpty((if imgcls.Some? then [imgcls.value] else []) + ["shoebot"] + classes)
  }

  /** The `class` attribute: the class names joined with spaces. */
  function ClassAttr(imgcls: Option<string>, classes: seq<string>): string {
    Join(ClassNames(imgcls, classes), ' ')
  }

  /** The names are kept in the order of the source's list: the image
      class when it is given and not empty, then `shoebot`, then the node's
      non-empty classes in their order. */
  lemma ClassNamesOrder(imgcls: Option<string>, classes: seq<string>)
    ensures ClassNames(imgcls, classes)
            == (if imgcls.Some? && imgcls.value != [] then [imgcls.value] else []) + ["shoebot"] + DropEmpty(classes)
  {
    var head := if imgcls.Some? then [imgcls.value] else [];
    DropEmptyAppend(head + ["shoebot"], classes);
    DropEmptyAppend(head, ["shoebot"]);
    DropEmptySingle("shoebot");
    if imgcls.Some? {
      DropEmptySingle(imgcls.value);
    }
  }

  /** For class names without spaces the attribute splits back into the
      names kept, and `shoebot` is always one of them. */
  lemma ClassAttrSplits(imgcls: Option<string>, classes: seq<string>)
    requires imgcls.Some? ==> ' ' !in imgcls.value
    requires forall i :: 0 <= i < |classes| ==> ' ' !in classes[i]
    ensures Split(ClassAttr(imgcls, classes), ' ') == ClassNames(imgcls, classes)
    ensures "shoebot" in Split(ClassAttr(imgcls, classes), ' ')
  {
    var all := (if imgcls.Some? then [imgcls.value] else []) + ["shoebot"] + classes;
    var names := ClassNames(imgcls, classes);
    assert "shoebot" in all;
    assert "shoebot" in names;
    forall i | 0 <= i < |names| ensures ' ' !in names[i] {
      assert names[i] in all;
    }
    SplitJoin(names, ' ');
  }

  /** The alternative text: the `alt` argument, else the node's `alt`, else
      the encoded code stripped of surrounding white space. */
  function AltText(alt: Option<string>, node: ShoebotNode, encoded: string): string {
    if alt.Some? then alt.value
    else if node.alt.Some? then node.alt.value
    else StripSpace(encoded)
  }

  const AlignLead := "<div align=\""

  /** `'<div align="%s" class="align-%s">' % (align, align)`. */
  function AlignOpen(align: string): string {
    AlignLead + align + AlignTail(align)
  }

  function AlignTail(align: string): string {
    "\" class=\"align-" + align + "\">"
  }

  function LinkLead(format: string): string {
    if format == "svg" then "<object data=\"" else "<img src=\""
  }

  /** The element linking the image: an `<object>` for `svg`, an `<img>`
      with the alternative text for `png`. */
  function LinkElement(format: string, relfn: string, cls: string, alt: string): string {
    LinkLead(format) + relfn + LinkTail(format, cls, alt)
  }

  function LinkTail(format: string, cls: string, alt: string): string {
    if format == "svg" then "\" type=\"image/svg+xml\" class=\"" + cls + "\">\n"
    else "\" alt=\"" + alt + "\" class=\"" + cls + "\" />"
  }

  const ShoebotOpen := "<div class=\"shoebot\">"
  const DivClose := "</div>\n"

  /** The strings appended for an `svg` (an `<object>` with the alternative
      text as its fallback) or a `png` (an `<img>`), each followed by the
      highlighted code. */
  function ImageBlock(format: string, relfn: string, cls: string, alt: string, parsed: string): seq<string>
    requires format == "png" || format == "svg"
  {
    if format == "svg" then
      [ ShoebotOpen,
        LinkElement(format, relfn, cls, alt),
        "<p class=\"warning\">" + alt + "</p>",
        "</object>\n",
        parsed + "\n",
        DivClose ]
    else
      [ ShoebotOpen,
        LinkElement(format, relfn, cls, alt),
        parsed + "\n",
        DivClose ]
  }

  /** Everything one node appends to the body: the image block, inside an
      aligned `<div>` when the node has an `align`. */
  function HtmlFragment(format: string, relfn: string, cls: string, alt: string, parsed: string,
                        align: Option<string>): seq<string>
    requires format == "png" || format == "svg"
  {
    match align
    case None => ImageBlock(format, relfn, cls, alt, parsed)
    case Some(a) => [AlignOpen(a)] + ImageBlock(format, relfn, cls, alt, parsed) + [DivClose]
  }

  predicate NotQuote(c: char) {
    c != '"'
  }

  /** The value of the attribute an element starts with: the text after
      `lead` up to the next double quote; `None` when the element does not
      start with `lead`. */
  function AttributeAfter(element: string, lead: string): Option<string> {
    if |lead| <= |element| && element[..|lead|] == lead then
      var rest := element[|lead|..];
      Some(rest[..LeadLength(rest, NotQuote)])
    else None
  }

  /** An attribute value without double quotes, closed by one, is read
      back. */
  lemma AttributeAfterValue(lead: string, value: string, tail: string)
    requires '"' !in value
    requires tail != [] && tail[0] == '"'
    ensures AttributeAfter(lead + value + tail, lead) == Some(value)
  {
    var e := lead + value + tail;
    assert e[..|lead|] == lead;
    var rest := e[|lead|..];
    assert rest == value + tail;
    assert rest[|value|] == '"';
    LeadLengthAt(rest, NotQuote, |value|);
    assert rest[..|value|] == value;
  }

  /** A reader for appended fragments: the alignment, from an opening aligned
      `<div>`, and the image link, from the element after the block's
      opening `<div>`. */
  function ReadFragment(frag: seq<string>, format: string): (Option<string>, Option<string>) {
    if frag == [] then (None, None)
    else
      var align := AttributeAfter(frag[0], AlignLead);
      var k := if align.Some? then 2 else 1;
      if k < |frag| then (align, AttributeAfter(frag[k], LinkLead(format))) else (align, None)
  }

  /** The block opens with the `shoebot` `<div>`, and its next element links
      the image file. */
  lemma ImageBlockLink(format: string, relfn: string, cls: string, alt: string, parsed: string)
    requires format == "png" || format == "svg"
    requires '"' !in relfn
    ensures var block := ImageBlock(format, relfn, cls, alt, parsed);
            |block| >= 4 && block[0] == ShoebotOpen && AttributeAfter(block[1], LinkLead(format)) == Some(relfn)
  {
    AttributeAfterValue(LinkLead(format), relfn, LinkTail(format, cls, alt));
  }

  /** The opening aligned `<div>` gives back its alignment; the `shoebot`
      `<div>` gives none. */
  lemma AlignOpenRead(a: string)
    requires '"' !in a
    ensures AttributeAfter(AlignOpen(a), AlignLead) == Some(a)
    ensures AttributeAfter(ShoebotOpen, AlignLead) == None
  {
    AttributeAfterValue(AlignLead, a, AlignTail(a));
    assert ShoebotOpen[5] != AlignLead[5];
  }

  /** The alignment and the image link can be read back from what a node
      appends, when neither holds a double quote. */
  lemma ReadHtmlFragment(format: string, relfn: string, cls: string, alt: string, parsed: string,
                         align: Option<string>)
    requires format == "png" || format == "svg"
    requires '"' !in relfn
    requires align.Some? ==> '"' !in align.value
    ensures ReadFragment(HtmlFragment(format, relfn, cls, alt, parsed, align), format) == (align, Some(relfn))
  {
    var block := ImageBlock(format, relfn, cls, alt, parsed);
    ImageBlockLink(format, relfn, cls, alt, parsed);
    AlignOpenRead(if align.Some? then align.value else "");
    match align
    case None =>
      ReadUnaligned(block, format, relfn);
    case Some(a) =>
      ReadAligned(a, block, format, relfn);
  }

  /** Reading a block that no aligned `<div>` opens. */
  lemma ReadUnaligned(block: seq<string>, format: string, relfn: string)
    requires |block| >= 2 && AttributeAfter(block[0], AlignLead) == None
    requires AttributeAfter(block[1], LinkLead(format)) == Some(relfn)
    ensures ReadFragment(block, format) == (None, Some(relfn))
  {
  }

  /** Reading a block inside an aligned `<div>`. */
  lemma ReadAligned(a: string, block: seq<string>, format: string, relfn: string)
    requires AttributeAfter(AlignOpen(a), AlignLead) == Some(a)
    requires |block| >= 2 && AttributeAfter(block[1], LinkLead(format)) == Some(relfn)
    ensures ReadFragment([AlignOpen(a)] + block + [DivClose], format) == (Some(a), Some(relfn))
  {
    var frag := [AlignOpen(a)] + block + [DivClose];
    assert frag[0] == AlignOpen(a) && frag[2] == block[1];
  }

  /** A fragment opens with the aligned `<div>` exactly when the node has an
      alignment, and, aligned or not, ends with a closing `</div>`. */
  lemma HtmlFragmentFrame(format: string, relfn: string, cls: string, alt: string, parsed: string,
                          align: Option<string>)
    requires format == "png" || format == "svg"
    ensures var frag := HtmlFragment(format, relfn, cls, alt, parsed, align);
            && |frag| == (if format == "svg" then 6 else 4) + (if align.Some? then 2 else 0)
            && (AttributeAfter(frag[0], AlignLead).Some? <==> align.Some?)
            && (align.Some? ==> frag[0] == AlignOpen(align.value) && frag[1] == ShoebotOpen)
            && (align.None? ==> frag[0] == ShoebotOpen)
            && frag[|frag| - 1] == DivClose
  {
    if align.Some? {
      assert AlignOpen(align.value)[..|AlignLead|] == AlignLead;
    } else {
      assert ShoebotOpen[5] != AlignLead[5];
    }
  }


  /** A warning logged through `logger.warning('shoebot code %r: %s', code, exc)`. */
  datatype LoggedWarning = LoggedWarning(code: string, error: ShoebotError)

  /** `raise nodes.SkipNode` ends every visit that does not propagate an
      exception of another kind. */
  datatype Visit = SkipNode | Propagates(exc: Exception)

  /** The state a visit works on: the page body, the output files, the
      working directory, the calls made on the engine and the warnings
      logged. */
  datatype HtmlState = HtmlState(
    body: seq<string>,
    files: set<string>,
    cwd: string,
    engineLog: seq<EngineCall>,
    warnings: seq<LoggedWarning>)

  /** `render_shoebot_html` after the rendering `r`: the files, the working
      directory and the engine log are the rendering's, and its result is
      reported. */
  function HtmlAfter(s: HtmlState, r: Rendering, code: string, format: string, cls: string,
                     alt: string, parsed: string, align: Option<string>): (Visit, HtmlState)
    requires format == "png" || format == "svg"
  {
    HtmlReport(s.(files := r.files, cwd := r.cwd, engineLog := s.engineLog + r.calls), r.result,
               code, format, cls, alt, parsed, align)
  }

  /** Reporting a result of `render_shoebot`: a `ShoebotError` is logged as a
      warning and skips the node with the body unchanged; any other exception
      propagates; rendered paths append the fragment that links the image. */
  function HtmlReport(s: HtmlState, result: Result<Paths, Exception>, code: string, format: string,
                      cls: string, alt: string, parsed: string, align: Option<string>): (Visit, HtmlState)
    requires format == "png" || format == "svg"
  {
    match result
    case Err(Shoebot(e)) => (SkipNode, s.(warnings := s.warnings + [LoggedWarning(code, e)]))
    case Err(e) => (Propagates(e), s)
    case Ok(paths) => (SkipNode, s.(body := s.body + HtmlFragment(format, paths.relfn, cls, alt, parsed, align)))
  }

  /** `render_shoebot_html` from state `s`: an output format other than `png`
      or `svg` is logged as a warning and skips the node with nothing else
      changed; otherwise the code is rendered and the rendering reported. */
  function HtmlEffect(b: Builder, sha1: seq<byte> -> Sha1Digest, highlight: string -> string,
                      encode: string -> string, s: HtmlState, node: ShoebotNode, code: string,
                      options: map<string, PyValue>, prefix: string, imgcls: Option<string>,
                      alt: Option<string>, filename: Option<string>, engine: Engine): (Visit, HtmlState)
  {
    var format := b.outputFormat;
    if format != "png" && format != "svg" then
      (SkipNode, s.(warnings := s.warnings + [LoggedWarning(code, BadOutputFormat(format))]))
    else
      HtmlAfter(s, RenderEffect(b, sha1, s.files, s.cwd, code, options, format, prefix, filename, engine),
                code, format, ClassAttr(imgcls, node.classes), AltText(alt, node, encode(code)),
                highlight(code), node.align)
  }

  /** An output format other than `png` or `svg` is refused before
      anything is rendered: one warning is logged, the node is skipped, and
      the engine, the files, the working directory and the body are left as
      they were. */
  lemma HtmlEffectBadFormat(b: Builder, sha1: seq<byte> -> Sha1Digest, highlight: string -> string,
                            encode: string -> string, s: HtmlState, node: ShoebotNode, code: string,
                            options: map<string, PyValue>, prefix: string, imgcls: Option<string>,
                            alt: Option<string>, filename: Option<string>, engine: Engine)
    requires b.outputFormat != "png" && b.outputFormat != "svg"
    ensures var (v, t) := HtmlEffect(b, sha1, highlight, encode, s, node, code, options, prefix, imgcls,
                                     alt, filename, engine);
            && v == SkipNode
            && t.engineLog == s.engineLog && t.files == s.files && t.cwd == s.cwd && t.body == s.body
            && t.warnings == s.warnings + [LoggedWarning(code, BadOutputFormat(b.outputFormat))]
  {
  }

  /** The body only ever grows, and it grows exactly when the rendering
      returned paths, by the fragment linking them; a warning is logged
      exactly when the rendering raised a `ShoebotError`; either way the node
      is skipped unless another exception propagates. */
  lemma HtmlBodyGrowsByFragment(s: HtmlState, r: Rendering, code: string, format: string, cls: string,
                                alt: string, parsed: string, align: Option<string>)
    requires format == "png" || format == "svg"
    ensures var (v, t) := HtmlAfter(s, r, code, format, cls, alt, parsed, align);
            && |s.body| <= |t.body| && t.body[..|s.body|] == s.body
            && (t.body != s.body <==> r.result.Ok?)
            && (r.result.Ok? ==> t.body[|s.body|..] == HtmlFragment(format, r.result.value.relfn, cls, alt, parsed, align))
            && (t.warnings != s.warnings <==> r.result.Err? && r.result.error.Shoebot?)
            && (v.Propagates? <==> r.result.Err? && !r.result.error.Shoebot?)
  {
    if r.result.Ok? {
      HtmlFragmentFrame(format, r.result.value.relfn, cls, alt, parsed, align);
    }
  }

  /** Visiting the same node twice, when the first visit rendered, appends
      the same fragment again and leaves the engine and the files alone: the
      first visit left the output file behind. */
  lemma HtmlRevisit(s: HtmlState, paths: Paths, workDir: Result<string, PyValue>, plan: Plan,
                    engine: Engine, engine2: Engine, code: string, format: string, cls: string,
                    alt: string, parsed: string, align: Option<string>)
    requires format == "png" || format == "svg"
    ensures var r1 := Attempt(paths, workDir, plan, s.files, s.cwd, engine);
            var (_, t) := HtmlAfter(s, r1, code, format, cls, alt, parsed, align);
            var r2 := Attempt(paths, workDir, plan, t.files, t.cwd, engine2);
            var (v2, u) := HtmlAfter(t, r2, code, format, cls, alt, parsed, align);
            r1.result.Ok? ==>
              && v2 == SkipNode
              && u.engineLog == t.engineLog
              && u.files == t.files && u.cwd == t.cwd
              && u.body == t.body + t.body[|s.body|..]
  {
    var r1 := Attempt(paths, workDir, plan, s.files, s.cwd, engine);
    if r1.result.Ok? {
      var t := HtmlAfter(s, r1, code, format, cls, alt, parsed, align).1;
      assert paths.outfn in t.files;
      CacheHit(paths, workDir, plan, t.files, t.cwd, engine2);
    }
  }

  /* ------------------------------------------------------- the translator */

  /** The HTML translator with the builder settings, the extension's
      collaborators (SHA-1, the Pygments highlighter, the translator's
      `encode`) and the state a visit changes. */
  class HtmlTranslator {
    const builder: Builder
    const sha1: seq<byte> -> Sha1Digest
    const highlight: string -> string
    const encode: string -> string
    var body: seq<string>
    var files: set<string>
    var cwd: string
    var engineLog: seq<EngineCall>
    var warnings: seq<LoggedWarning>

    constructor (builder: Builder, sha1: seq<byte> -> Sha1Digest, highlight: string -> string,
                 encode: string -> string, files: set<string>, cwd: string)
      ensures this.builder == builder && this.sha1 == sha1
      ensures this.highlight == highlight && this.encode == encode
      ensures State() == HtmlState([], files, cwd, [], [])
    {
      this.builder := builder;
      this.sha1 := sha1;
      this.highlight := highlight;
      this.encode := encode;
      this.body := [];
      this.files := files;
      this.cwd := cwd;
      this.engineLog := [];
      this.warnings := [];
    }

    function State(): HtmlState
      reads this
    {
      HtmlState(body, files, cwd, engineLog, warnings)
    }

    /** One call on the engine: it is logged, and `raised` says whether the
        engine raises at it. */
    method Call(c: EngineCall, engine: Engine, step: nat) returns (raised: bool)
      modifies this`engineLog
      ensures engineLog == old(engineLog) + [c]
      ensures raised <==> engine.RaisesAt? && engine.step == step
    {
      engineLog := engineLog + [c];
      raised := engine.RaisesAt? && engine.step == step;
    }

    /** `for libname in ximports: bot.ximport(libname)`, the first of these
        calls being call number `first`. */
    method RunImports(libs: seq<PyValue>, engine: Engine, first: nat) returns (failed: bool)
      requires !(engine.RaisesAt? && engine.step < first)
      modifies this`engineLog
      ensures failed <==> engine.RaisesAt? && engine.step < first + |libs|
      ensures engineLog == old(engineLog) + (if failed then Imports(libs)[..engine.step - first + 1] else Imports(libs))
    {
      var i := 0;
      while i < |libs|
        invariant 0 <= i <= |libs|
        invariant engineLog == old(engineLog) + Imports(libs)[..i]
        invariant !(engine.RaisesAt? && engine.step < first + i)
      {
        assert Imports(libs)[..i + 1] == Imports(libs)[..i] + [Ximport(libs[i])];
        failed := Call(Ximport(libs[i]), engine, first + i);
        if failed {
          return;
        }
        i := i + 1;
      }
      assert Imports(libs)[..i] == Imports(libs);
      return false;
    }

    /** The libraries, then `bot.run(code)`, the first call being call number
        `first`. */
    method RunScript(libs: seq<PyValue>, code: string, engine: Engine, first: nat) returns (failed: bool)
      requires !(engine.RaisesAt? && engine.step < first)
      modifies this`engineLog
      ensures var script := Script(libs, code);
              && (failed <==> engine.RaisesAt? && engine.step < first + |script|)
              && engineLog == old(engineLog) + (if failed then script[..engine.step - first + 1] else script)
    {
      ghost var script := Script(libs, code);
      failed := RunImports(libs, engine, first);
      if failed {
        PrefixInFirst(Imports(libs), [RunCode(code)], engine.step - first + 1);
        return;
      }
      failed := Call(RunCode(code), engine, first + |libs|);
      assert script[..|script|] == script;
    }

    /** The body of the `with` block: the planned calls in turn, up to the one
        the engine raises at or the `TypeError` of an option that does not
        iterate. */
    method RunEngine(format: string, outfn: string, size: PyValue, ximports: PyValue, code: string,
                     engine: Engine) returns (raised: Option<Exception>)
      modifies this`engineLog
      ensures var q := PerformFrom(EnginePlan(format, outfn, size, ximports, code), engine, 0);
              engineLog == old(engineLog) + q.calls && raised == q.raised
    {
      PerformCreate(format, outfn, size, ximports, code, engine);
      var failed := Call(CreateBot(format, outfn), engine, 0);
      if failed {
        return Some(EngineException(engine.message));
      }
      raised := RunSize(size, ximports, code, engine);
    }

    /** The calls after `create_bot`: the `TypeError` of a size that does
        not iterate, or the calls for the size's items. */
    method RunSize(size: PyValue, ximports: PyValue, code: string, engine: Engine) returns (raised: Option<Exception>)
      requires !(engine.RaisesAt? && engine.step < 1)
      modifies this`engineLog
      ensures var q := PerformFrom(AfterCreate(size, ximports, code), engine, 1);
              engineLog == old(engineLog) + q.calls && raised == q.raised
    {
      var args := Items(size);
      if args.None? {
        return Some(TypeError(size));
      }
      raised := RunSized(args.value, ximports, code, engine);
    }

    /** `bot.size(*args)`, then the rest. */
    method RunSized(args: seq<PyValue>, ximports: PyValue, code: string, engine: Engine) returns (raised: Option<Exception>)
      requires !(engine.RaisesAt? && engine.step < 1)
      modifies this`engineLog
      ensures var q := PerformFrom(Cons(Size(args), Cons(Background(1), AfterSetup(ximports, code))), engine, 1);
              engineLog == old(engineLog) + q.calls && raised == q.raised
    {
      ghost var rest := Cons(Background(1), AfterSetup(ximports, code));
      PerformCons(Size(args), rest, engine, 1);
      var failed := Call(Size(args), engine, 1);
      if failed {
        return Some(EngineException(engine.message));
      }
      raised := RunBackground(ximports, code, engine);
    }

    /** The calls after the size: `bot.background(1)`, then the rest. */
    method RunBackground(ximports: PyValue, code: string, engine: Engine) returns (raised: Option<Exception>)
      requires !(engine.RaisesAt? && engine.step < 2)
      modifies this`engineLog
      ensures var q := PerformFrom(Cons(Background(1), AfterSetup(ximports, code)), engine, 2);
              engineLog == old(engineLog) + q.calls && raised == q.raised
    {
      PerformCons(Background(1), AfterSetup(ximports, code), engine, 2);
      var failed := Call(Background(1), engine, 2);
      if failed {
        return Some(EngineException(engine.message));
      }
      raised := RunAfterSetup(ximports, code, engine);
    }

    /** The calls after the setup: the libraries and the code, or the
        `TypeError` of libraries that do not iterate. */
    method RunAfterSetup(ximports: PyValue, code: string, engine: Engine) returns (raised: Option<Exception>)
      requires !(engine.RaisesAt? && engine.step < 3)
      modifies this`engineLog
      ensures var q := PerformFrom(AfterSetup(ximports, code), engine, 3);
              engineLog == old(engineLog) + q.calls && raised == q.raised
    {
      var libs := Items(ximports);
      if libs.None? {
        return Some(TypeError(ximports));
      }
      var failed := RunScript(libs.value, code, engine, 3);
      if failed {
        return Some(EngineException(engine.message));
      }
      return None;
    }

    /** `render_shoebot`. */
    method RenderShoebot(code: string, options: map<string, PyValue>, format: string, prefix: string,
                         filename: Option<string>, engine: Engine) returns (r: Result<Paths, Exception>)
      modifies this`engineLog, this`files, this`cwd
      ensures var e := RenderEffect(builder, sha1, old(files), old(cwd), code, options, format, prefix, filename, engine);
              && r == e.result
              && engineLog == old(engineLog) + e.calls
              && files == e.files
              && cwd == e.cwd
    {
      var size := Get(options, "size", DefaultSize);
      var ximports := Get(options, "ximports", PyList([]));
      var paths := RenderPaths(builder, sha1, code, format, prefix);
      r := RenderTo(paths, options, filename, format, size, ximports, code, engine);
    }

    /** `render_shoebot` once the paths are named: the cache check and the
        working directory. */
    method RenderTo(paths: Paths, options: map<string, PyValue>, filename: Option<string>, format: string,
                    size: PyValue, ximports: PyValue, code: string, engine: Engine)
      returns (r: Result<Paths, Exception>)
      modifies this`engineLog, this`files, this`cwd
      ensures var e := Attempt(paths, WorkDir(builder, options, filename),
                               EnginePlan(format, paths.outfn, size, ximports, code), old(files), old(cwd), engine);
              && r == e.result
              && engineLog == old(engineLog) + e.calls
              && files == e.files
              && cwd == e.cwd
    {
      if paths.outfn in files {
        return Ok(paths);
      }
      var workDir := WorkDir(builder, options, filename);
      if workDir.Err? {
        return Err(TypeError(workDir.error));
      }
      r := RenderIn(paths, workDir.value, format, size, ximports, code, engine);
    }

    /** The `with` block run in directory `wd`, and the check for the file. */
    method RenderIn(paths: Paths, wd: string, format: string, size: PyValue, ximports: PyValue,
                    code: string, engine: Engine) returns (r: Result<Paths, Exception>)
      modifies this`engineLog, this`files, this`cwd
      ensures var e := InDirectory(paths, wd, EnginePlan(format, paths.outfn, size, ximports, code),
                                   old(files), old(cwd), engine);
              && r == e.result
              && engineLog == old(engineLog) + e.calls
              && files == e.files
              && cwd == e.cwd
    {
      var savedCwd := cwd;
      cwd := wd;
      files := files + {paths.outfn};
      var raised := RunEngine(format, paths.outfn, size, ximports, code, engine);
      if !engine.leavesFile {
        files := files - {paths.outfn};
      }
      if raised.Some? {
        return Err(raised.value);
      }
      cwd := savedCwd;
      if paths.outfn !in files {
        return Err(Shoebot(NoOutputFile(savedCwd, paths.outfn)));
      }
      return Ok(paths);
    }

    /** The appends of `render_shoebot_html` for a rendered image linked as
        `fname`. */
    method AppendFragment(format: string, fname: string, cls: string, alt: string, parsed: string,
                          align: Option<string>)
      requires format == "png" || format == "svg"
      modifies this`body
      ensures body == old(body) + HtmlFragment(format, fname, cls, alt, parsed, align)
    {
      if align.Some? {
        Append(AlignOpen(align.value));
      }
      ghost var mid := body;
      var link := LinkElement(format, fname, cls, alt);
      if format == "svg" {
        AppendObject(link, alt, parsed);
      } else {
        AppendImage(link, parsed);
      }
      assert body == mid + ImageBlock(format, fname, cls, alt, parsed);
      if align.Some? {
        Append(DivClose);
      }
    }

    /** The `svg` block: the `<object>` element, its fallback paragraph, the
        highlighted code. */
    method AppendObject(link: string, alt: string, parsed: string)
      modifies this`body
      ensures body == old(body) + [ShoebotOpen, link, "<p class=\"warning\">" + alt + "</p>",
                                   "</object>\n", parsed + "\n", DivClose]
    {
      Append(ShoebotOpen);
      Append(link);
      Append("<p class=\"warning\">" + alt + "</p>");
      Append("</object>\n");
      Append(parsed + "\n");
      Append(DivClose);
    }

    /** The `png` block: the `<img>` element, the highlighted code. */
    method AppendImage(link: string, parsed: string)
      modifies this`body
      ensures body == old(body) + [ShoebotOpen, link, parsed + "\n", DivClose]
    {
      Append(ShoebotOpen);
      Append(link);
      Append(parsed + "\n");
      Append(DivClose);
    }

    /** `self.body.append(s)`. */
    method Append(s: string)
      modifies this`body
      ensures body == old(body) + [s]
    {
      body := body + [s];
    }

    /** `render_shoebot_html`. */
    method RenderShoebotHtml(node: ShoebotNode, code: string, options: map<string, PyValue>, prefix: string,
                             imgcls: Option<string>, alt: Option<string>, filename: Option<string>,
                             engine: Engine) returns (v: Visit)
      modifies this`body, this`files, this`cwd, this`engineLog, this`warnings
      ensures (v, State()) == HtmlEffect(builder, sha1, highlight, encode, old(State()), node, code, options,
                                         prefix, imgcls, alt, filename, engine)
    {
      var format := builder.outputFormat;
      if format != "png" && format != "svg" {
        warnings := warnings + [LoggedWarning(code, BadOutputFormat(format))];
        return SkipNode;
      }
      var r := RenderShoebot(code, options, format, prefix, filename, engine);
      v := Report(r, code, format, ClassAttr(imgcls, node.classes), AltText(alt, node, encode(code)),
                  highlight(code), node.align);
    }

    /** The end of `render_shoebot_html`, once `render_shoebot` returned `r`. */
    method Report(r: Result<Paths, Exception>, code: string, format: string, cls: string, alt: string,
                  parsed: string, align: Option<string>) returns (v: Visit)
      requires format == "png" || format == "svg"
      modifies this`body, this`warnings
      ensures (v, State()) == HtmlReport(old(State()), r, code, format, cls, alt, parsed, align)
    {
      if r.Err? {
        if r.error.Shoebot? {
          warnings := warnings + [LoggedWarning(code, r.error.error)];
          return SkipNode;
        }
        return Propagates(r.error);
      }
      AppendFragment(format, r.value.relfn, cls, alt, parsed, align);
      return SkipNode;
    }

    /** `html_visit_shoebot`: the node's own code and options, the default
        prefix, no image class, no alternative text argument and no filename. */
    method HtmlVisit(node: ShoebotNode, engine: Engine) returns (v: Visit)
      modifies this`body, this`files, this`cwd, this`engineLog, this`warnings
      ensures (v, State()) == HtmlEffect(builder, sha1, highlight, encode, old(State()), node, node.code,
                                         node.options, "shoebot", None, None, None, engine)
    {
      v := RenderShoebotHtml(node, node.code, node.options, "shoebot", None, None, None, engine);
    }
  }
}

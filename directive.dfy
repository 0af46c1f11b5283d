/** The `shoebot` directive (class `Shoebot` in sphinxcontrib/shoebot.py): from
    the directive's argument, body and decoded options, `run` either reports a
    warning or builds one `shoebot` node carrying the code and the options the
    writers need. */
module Directive {
  import opened Wrappers
  import opened PyStrings
  import opened PyValues

  /** The options after docutils has applied `option_spec`; a field is `None`
      when the option was not given. `size` and `ximports` are decoded but, as
      `run` is written, never copied into the node. */
  datatype DirectiveOptions = DirectiveOptions(
    alt: Option<string>,
    align: Option<string>,
    size: Option<PyValue>,
    ximports: Option<seq<string>>,
    filename: Option<string>)

  /** What `run` sees of the directive instance: its arguments (at most one),
      its body lines, its options, its line number and the name of the
      document it stands in. */
  datatype ShoebotDirective = ShoebotDirective(
    arguments: seq<string>,
    content: seq<string>,
    options: DirectiveOptions,
    lineno: int,
    docname: string)

  /** The `shoebot` node: its attribute dictionary, one field per key the code
      sets or reads (`'alt'` and `'align'` present exactly when `Some`). */
  datatype ShoebotNode = ShoebotNode(
    code: string,
    options: map<string, PyValue>,
    alt: Option<string>,
    align: Option<string>,
    classes: seq<string>)

  /** What `run` returns: a list holding one warning, a list holding the node,
      or the exception raised for a filename argument without a body. */
  datatype RunResult =
    | Warning(message: string, line: int)
    | Node(node: ShoebotNode)
    | FilenameArgumentUnsupported

  const BothMessage := "Shoebot directive cannot have both content and a filename argument"
  const EmptyMessage := "Ignoring \"shoebot\" directive without content."

  /** The node's `options` dictionary: `{'docname': docname}`. */
  function NodeOptions(docname: string): map<string, PyValue> {
    map["docname" := PyStr(docname)]
  }

  /** `Shoebot.run`. An argument together with a body is one warning; an
      argument alone is not supported; a body that is empty or only white
      space is one warning; otherwise the node holds the body lines joined with
      newlines, `{'docname': docname}` as its options, and `alt` and `align`
      exactly when the directive was given them. */
  method Run(d: ShoebotDirective) returns (r: RunResult)
    ensures d.arguments != [] && d.content != [] ==> r == Warning(BothMessage, d.lineno)
    ensures d.arguments != [] && d.content == [] ==> r == FilenameArgumentUnsupported
    ensures d.arguments == [] ==> (r.Warning? <==> IsBlank(Join(d.content, '\n')))
    ensures d.arguments == [] && r.Warning? ==> r == Warning(EmptyMessage, d.lineno)
    ensures d.arguments == [] ==> r.Warning? || r.Node?
    ensures r.Node? ==>
              && r.node.code == Join(d.content, '\n')
              && r.node.options == NodeOptions(d.docname)
              && r.node.alt == d.options.alt
              && r.node.align == d.options.align
              && r.node.classes == []
  {
    var sourceCode: string;
    if d.arguments != [] {
      if d.content != [] {
        return Warning(BothMessage, d.lineno);
      }
      return FilenameArgumentUnsupported;
    } else {
      sourceCode := Join(d.content, '\n');
      if StripSpace(sourceCode) == [] {
        return Warning(EmptyMessage, d.lineno);
      }
    }
    var node := ShoebotNode(sourceCode, map[], None, None, []);
    node := node.(options := NodeOptions(d.docname));
    if d.options.alt.Some? {
      node := node.(alt := d.options.alt);
    }
    if d.options.align.Some? {
      node := node.(align := d.options.align);
    }
    return Node(node);
  }

  /** The node's code splits back into the directive's body lines (docutils
      body lines never hold a newline). */
  lemma CodeSplitsIntoLines(content: seq<string>)
    requires |content| >= 1
    requires forall i :: 0 <= i < |content| ==> '\n' !in content[i]
    ensures Split(Join(content, '\n'), '\n') == content
  {
    SplitJoin(content, '\n');
  }

  /** A body of blank lines only is ignored (it joins to white space alone),
      while a body with one visible character anywhere is kept. */
  lemma {:induction false} BlankLinesJoinBlank(content: seq<string>)
    ensures IsBlank(Join(content, '\n')) <==> forall i :: 0 <= i < |content| ==> IsBlank(content[i])
    decreases |content|
  {
    if |content| > 1 {
      BlankLinesJoinBlank(content[1..]);
      var j := Join(content[1..], '\n');
      assert Join(content, '\n') == content[0] + ['\n'] + j;
      BlankConcat(content[0] + ['\n'], j);
      BlankConcat(content[0], ['\n']);
      assert forall i :: 1 <= i < |content| ==> content[i] == content[1..][i - 1];
    }
  }

  /** A concatenation is blank exactly when both parts are. */
  lemma BlankConcat(a: string, b: string)
    ensures IsBlank(a + b) <==> IsBlank(a) && IsBlank(b)
  {
    if IsBlank(a + b) {
      forall i | 0 <= i < |a| ensures IsSpace(a[i]) { assert (a + b)[i] == a[i]; }
      forall i | 0 <= i < |b| ensures IsSpace(b[i]) { assert (a + b)[|a| + i] == b[i]; }
    }
  }
}

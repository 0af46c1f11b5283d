# shoebot Sphinx extension — a Dafny model

`sphinxcontrib/shoebot.py` adds a `shoebot` directive to Sphinx. The directive
body is a Shoebot drawing script. The HTML writer runs that script in the
Shoebot engine and writes a PNG or SVG image. It names the image after a
SHA-1 digest of the code, reuses an image of that name when it already
exists, and links the image from the page; the code is shown beside it,
highlighted. The plain-text and manual-page writers write a bracketed
placeholder instead.

This project models that core and proves properties of the model:

- `OptionSpecs`: the option converters `align_spec`, `size_spec` and
  `ximports_spec`. They rest on `PyStrings` (Python's `isspace`, `strip`,
  `lower`, `split`, `join` and the empty-string filter) and on `PyInt`
  (Python's `int()` in base 10, and `str()` as its inverse).
- `Directive`: `Shoebot.run`, as a method.
- `Naming`: UTF-8, `hexdigest`, `get_hashid`, the output file name, and
  `posixpath.join` and `dirname`. SHA-1 is a parameter: any function from
  bytes to 20-byte digests.
- `Render`: `render_shoebot`, `render_shoebot_html` and `html_visit_shoebot`.
  - Each is a specification function over a state of files, working
    directory, engine call log, warnings and page body.
  - The class `HtmlTranslator` holds that state in fields. Its methods do the
    same steps in the source's order, and each is proved against its
    specification function.
- `Placeholders`: `text_visit_shoebot` and `man_visit_shoebot`, as classes
  whose `Visit` appends to the writer's output.

The drawing engine is a parameter `Engine`. Either it raises at a given call,
or it takes every call. Either way the output file is still there afterwards
or is gone, since the page's code that `bot.run` runs may remove it.
Every call the extension makes on the engine is logged.

Observations the model makes precise:

- `size` and `ximports` are decoded (`OptionSpecs.SizeSpec`,
  `OptionSpecs.XimportsSpec`), but `run` copies only the docname into the
  node's options. So an image rendered from a node always has the default
  size 100 by 100 and no libraries (`Render.RunNodeRendersWithDefaults`).
- `open(outfn, "wb")` creates the output file before the engine runs, so a
  rendering whose engine raises still leaves a file behind unless the engine
  removed it. Every later rendering of the same code then takes that file as
  a cache hit and returns its name without calling the engine
  (`Render.AttemptLeavesCachedFile`, `Render.RenderLeavesCachedFile`). When
  the engine removed it, the error is reported and the next rendering runs
  the engine again (`Render.AttemptRemovedFileRendersAgain`).
- An exception inside the `with` block skips `os.chdir(_cwd)`. The working
  directory then stays the one the engine ran in (`Render.AttemptCwd`).
- The post-check "did not produce an output file" fails only when the engine
  raises at none of the calls and the file is gone afterwards
  (`Render.AttemptPostCheck`).
- `raise NotImplemented(...)` calls a constant that is not callable. The
  filename-argument path of `run` and the unknown-format branch of
  `render_shoebot_html` therefore raise `TypeError`, not
  `NotImplementedError`. The first is the outcome
  `FilenameArgumentUnsupported`. The second cannot be reached, since the
  format was checked earlier.

## Model

| member | source | states |
|---|---|---|
| OptionSpecs.AlignSpec | sphinxcontrib/shoebot.py:75-76 | An accepted alignment is one of `left`, `center`, `right`. A missing value is the "must supply an argument" error. Any other refusal is the "unknown" error naming the given text. |
| OptionSpecs.AlignSpecAcceptsChoice | sphinxcontrib/shoebot.py:75-76 | Each of the three choices, written as it is, is accepted as itself. |
| OptionSpecs.ChoiceLetters | sphinxcontrib/shoebot.py:76 | The three choices are non-empty and made of lower-case ASCII letters. |
| OptionSpecs.AlignSpecIdempotent | sphinxcontrib/shoebot.py:75-76 | Decoding an accepted alignment again gives the same result. |
| OptionSpecs.AlignSpecIgnoresCaseAndSpace | sphinxcontrib/shoebot.py:75-76 | Any spelling that lower-cases to a choice, padded with white space on either side, is accepted as that choice. |
| OptionSpecs.AlignSpecOnlySpellings | sphinxcontrib/shoebot.py:75-76 | Conversely, an accepted text is a spelling that lower-cases to the choice returned, padded with white space on either side; nothing else is accepted. |
| OptionSpecs.AlignSpecAcceptsExactly | sphinxcontrib/shoebot.py:75-76 | Both directions: a text is accepted as `c` exactly when `c` is one of the three choices and the text is a white-space-padded spelling that lower-cases to `c`. |
| OptionSpecs.SpellingOf | sphinxcontrib/shoebot.py:76 | A text whose lower case is not blank splits into white space, a spelling whose lower case is the stripped lower-cased text, and white space. |
| OptionSpecs.BlankUnderLower | sphinxcontrib/shoebot.py:76 | A stretch that is white space after lower-casing was white space before. |
| OptionSpecs.AlignSpecRejectsPrefix | sphinxcontrib/shoebot.py:75-76 | `"lef"`, a prefix of a choice, is refused with the "unknown" error naming it. |
| OptionSpecs.BlankLower | sphinxcontrib/shoebot.py:76 | Lower-casing leaves white space unchanged. |
| OptionSpecs.ChoiceUnpadded | sphinxcontrib/shoebot.py:76 | No choice starts or ends with white space. |
| OptionSpecs.AlignSpecNormalises | sphinxcontrib/shoebot.py:75-76 | `" Center"` is accepted as `"center"`. |
| OptionSpecs.ParseInts | sphinxcontrib/shoebot.py:84 | `tuple(map(int, pieces))` succeeds exactly when every piece is a number, and then gives each piece's value in order. Otherwise the error names the first piece that is not a number: every piece before it converts. |
| OptionSpecs.MapParse | sphinxcontrib/shoebot.py:84 | The same, for any conversion: success exactly when every piece converts, and otherwise the error names the first refused piece. |
| OptionSpecs.RefusedAfterFirst | sphinxcontrib/shoebot.py:84 | When the head converts, the first refused piece of the tail is the first refused piece of the whole. |
| OptionSpecs.IntTuple | sphinxcontrib/shoebot.py:84 | A tuple with one Python integer per number, in order. |
| OptionSpecs.SizeSpec | sphinxcontrib/shoebot.py:79-85 | A tuple is returned unchanged. A value neither tuple nor string gives the "Expected size" error. For a string, success gives one integer per comma-separated piece (one more than the commas), each the piece's `int()`. Failure names the first piece that `int()` refuses. |
| OptionSpecs.SizeSpecRejectsSeparator | sphinxcontrib/shoebot.py:79-85 | `size_spec("\x1c5,5")` raises `ValueError` naming the first piece, since `int()` does not skip U+001C. |
| OptionSpecs.SizeSpecFormatSize | sphinxcontrib/shoebot.py:79-85 | Integers written comma-separated decode back to exactly those integers (round trip). |
| OptionSpecs.FormatSize | sphinxcontrib/shoebot.py:79-85 | How a size is written as text: the `str()` of each integer, joined with commas. It is the inverse that `SizeSpecFormatSize` decodes. |
| OptionSpecs.ShowIntChars | sphinxcontrib/shoebot.py:84 | `str(n)` holds only a minus sign and digits, so it has no comma. |
| OptionSpecs.XimportsSpec | sphinxcontrib/shoebot.py:88-92 | Succeeds exactly for a string; anything else gives the "comma-separated list" error. The result is exactly the empty-string filter applied to the pieces of the string, stripped of ` ()` and split on commas, so the kept names come in the order of the text. Each name is non-empty and comma-free, and there are never more names than commas plus one. |
| OptionSpecs.IsListBracket | sphinxcontrib/shoebot.py:91 | Definition of the characters `strip(" ()")` removes: blank and both parentheses. |
| OptionSpecs.XimportsSpecJoin | sphinxcontrib/shoebot.py:88-92 | Non-empty, comma-free library names joined with commas, with any brackets around them, decode back to the same names (round trip). |
| OptionSpecs.XimportsSpecPieces | sphinxcontrib/shoebot.py:88-92 | Comma-joined pieces, some possibly empty, with brackets around them, decode to the non-empty pieces in their order and with their repetitions (`"a,,b"` gives `["a", "b"]`). |
| OptionSpecs.JoinEnds | sphinxcontrib/shoebot.py:91 | A join of non-empty pieces starts with the first piece's first character and ends with the last piece's last character. |
| OptionSpecs.XimportsSpecEmpty | sphinxcontrib/shoebot.py:91 | `"()"` and `",,"` decode to no libraries. |
| PyInt.ShowNat | sphinxcontrib/shoebot.py:84 | The decimal rendering of a natural number is non-empty digits whose value is the number. |
| PyInt.ShowInt | sphinxcontrib/shoebot.py:84 | The rendering of an integer starts with a minus sign or a digit and ends with a digit. |
| PyInt.IsIntSpace | sphinxcontrib/shoebot.py:84 | Definition of the white space `int()` skips: the `str.isspace` characters except the ASCII separators U+001C to U+001F, which CPython keeps and its C-level skip does not remove. |
| PyInt.ParseInt | sphinxcontrib/shoebot.py:84 | Definition of `int(s)`: surrounding `IsIntSpace` white space stripped, then `ParseSigned`. |
| PyInt.IsDecimalLiteral | sphinxcontrib/shoebot.py:84 | Definition of the literal `int()` accepts after a sign: digits at both ends, only digits and underscores between, no two underscores in a row. |
| PyInt.LiteralValue | sphinxcontrib/shoebot.py:84 | Definition of a literal's value: its digits read left to right, underscores skipped. |
| PyInt.ParseSigned | sphinxcontrib/shoebot.py:84 | Definition of `int()` after stripping: an optional sign, then a decimal literal with single underscores between digits; anything else refused. |
| PyInt.ParseShowInt | sphinxcontrib/shoebot.py:84 | `int(str(n)) == n` for every integer (round trip). |
| PyInt.DigitsLiteral | sphinxcontrib/shoebot.py:84 | A non-empty run of digits is a literal `int()` accepts. |
| PyInt.ParseDigits | sphinxcontrib/shoebot.py:84 | `int()` reads a run of digits as its value. |
| PyInt.ParseSignedDigits | sphinxcontrib/shoebot.py:84 | Without a sign, digits read as their value. |
| PyInt.StripCharsUntouched | sphinxcontrib/shoebot.py:84 | A text that starts with a minus sign or a digit and ends with a digit has no white space to strip. |
| PyInt.ParseNegated | sphinxcontrib/shoebot.py:84 | A minus sign before digits negates their value. |
| PyInt.ParseSignedMinus | sphinxcontrib/shoebot.py:84 | A minus sign before any literal negates the literal's value. |
| PyInt.ParseIntIgnoresSpace | sphinxcontrib/shoebot.py:84 | `IsIntSpace` white space on either side of a number is ignored (`int(" 200")` is 200). |
| PyInt.ParseIntRejectsSeparators | sphinxcontrib/shoebot.py:84 | U+001C and U+001F are `str.isspace` white space, yet a number they pad is refused by `int()`. |
| PyInt.ParseIntAcceptsSignAndUnderscore | sphinxcontrib/shoebot.py:84 | A sign, leading zeros and one underscore between digits are accepted: `"-0_5"` is -5. |
| PyInt.ParseIntRejectsBlank | sphinxcontrib/shoebot.py:84 | A blank piece (as in `"100, "`) is refused. |
| PyInt.ParseIntRejectsDoubleUnderscore | sphinxcontrib/shoebot.py:84 | Two underscores in a row are refused. |
| PyInt.ParseIntRejectsSpaceAfterSign | sphinxcontrib/shoebot.py:84 | White space between the sign and the digits is refused. |
| PyStrings.LeadLength | sphinxcontrib/shoebot.py:91 | The leading run removed is all dropped characters, and is followed by a kept one or by the end. |
| PyStrings.TrailLength | sphinxcontrib/shoebot.py:91 | The same for the trailing run. |
| PyStrings.Strip | sphinxcontrib/shoebot.py:91 | The result is never longer, and starts and ends with kept characters. It is empty exactly when every character is dropped. A text with kept characters at both ends is returned unchanged. |
| PyStrings.StripBounds | sphinxcontrib/shoebot.py:76 | A non-empty result of `strip` is the text between a leading and a trailing run of dropped characters. |
| PyStrings.StripSpace | sphinxcontrib/shoebot.py:138 | `s.strip()` is empty exactly when `s` is blank, and otherwise starts and ends with a non-space. |
| PyStrings.IsSpace | sphinxcontrib/shoebot.py:138 | Definition of `str.isspace` on one character: the white-space characters of Python's Unicode table. |
| PyStrings.StripIdempotent | sphinxcontrib/shoebot.py:91 | Stripping twice is stripping once. |
| PyStrings.StripPadded | sphinxcontrib/shoebot.py:91 | Stripping a text padded with dropped characters gives the text. |
| PyStrings.LeadLengthAt | sphinxcontrib/shoebot.py:91 | The leading run ends at the first kept character. |
| PyStrings.TrailLengthAt | sphinxcontrib/shoebot.py:91 | The trailing run ends at the last kept character. |
| PyStrings.Lower | sphinxcontrib/shoebot.py:76 | Lower-casing keeps the length. |
| PyStrings.LowerUntouched | sphinxcontrib/shoebot.py:76 | A text without upper-case ASCII letters is its own lower case. |
| PyStrings.LowerChar | sphinxcontrib/shoebot.py:76 | Definition of `c.lower()` on one character: an ASCII capital becomes its small letter, anything else is unchanged. |
| PyStrings.LowerAppend | sphinxcontrib/shoebot.py:76 | Lower-casing works piece by piece. |
| PyStrings.LowerAt | sphinxcontrib/shoebot.py:76 | Lower-casing maps each character on its own: character `i` of the result is the lower case of character `i`. |
| PyStrings.LowerSlice | sphinxcontrib/shoebot.py:76 | Lower-casing a slice is slicing the lower case. |
| PyStrings.LowerKeepsSpace | sphinxcontrib/shoebot.py:76 | Only white space lower-cases to white space. |
| PyStrings.Split | sphinxcontrib/shoebot.py:84 | `s.split(sep)` has one more piece than `s` has separators, and no piece holds the separator. |
| PyStrings.Occurrences | sphinxcontrib/shoebot.py:84 | Definition of `s.count(c)`, the number of separators in a text. |
| PyStrings.JoinCons | sphinxcontrib/shoebot.py:136 | Joining a sequence that starts with a given piece. |
| PyStrings.Join | sphinxcontrib/shoebot.py:136 | Definition of `sep.join(xs)` for a one-character separator. |
| PyStrings.JoinSplit | sphinxcontrib/shoebot.py:136 | Joining the pieces of a split with the same separator gives the text back. |
| PyStrings.JoinSplitAtSeparator | sphinxcontrib/shoebot.py:136 | The step of that round trip for a text that starts with the separator. |
| PyStrings.JoinSplitInPiece | sphinxcontrib/shoebot.py:136 | The step for a text that starts inside a piece. |
| PyStrings.JoinPrepend | sphinxcontrib/shoebot.py:136 | Prefixing the first piece prefixes the join. |
| PyStrings.SplitAfterPiece | sphinxcontrib/shoebot.py:84 | A separator-free prefix becomes part of the first piece. |
| PyStrings.SplitJoin | sphinxcontrib/shoebot.py:84 | Splitting a join of separator-free pieces gives the pieces back (round trip). |
| PyStrings.DropEmpty | sphinxcontrib/shoebot.py:91 | `[l for l in xs if l]` keeps exactly the non-empty strings and is never longer than `xs`; order and repetitions are pinned by `DropEmptyAppend` and `DropEmptySingle`. |
| PyStrings.DropEmptyUntouched | sphinxcontrib/shoebot.py:91 | A sequence without empty strings is unchanged by that filter. |
| PyStrings.DropEmptyAppend | sphinxcontrib/shoebot.py:91 | The filter of a concatenation is the concatenation of the filters: what is kept keeps its order and its repetitions. |
| PyStrings.DropEmptySingle | sphinxcontrib/shoebot.py:91 | One string is kept exactly when it is not empty. |
| PyValues.Items | sphinxcontrib/shoebot.py:213-216 | A tuple and a list iterate over their own items; a string over its one-character strings (`Chars`); any other value cannot be iterated (Python raises `TypeError`). |
| PyValues.Chars | sphinxcontrib/shoebot.py:215-216 | One one-character string per character of the string. |
| PyValues.CharsAt | sphinxcontrib/shoebot.py:215-216 | In order: item `i` is the one-character string of character `i`. |
| Directive.Run | sphinxcontrib/shoebot.py:115-163 | An argument together with a body gives the "both content and a filename" warning at the directive's line, and an argument alone raises. Without an argument, the result is a warning exactly when the joined body is blank, and then it is the "without content" warning. Otherwise it is a node whose code is the lines joined by newlines and whose options are `{'docname': docname}`. The node has `alt` and `align` exactly when the directive gave them, and no classes. |
| Directive.NodeOptions | sphinxcontrib/shoebot.py:145 | Definition of the node's options: `{'docname': docname}`. |
| Directive.CodeSplitsIntoLines | sphinxcontrib/shoebot.py:136 | The node's code splits back into the body lines (round trip). |
| Directive.BlankLinesJoinBlank | sphinxcontrib/shoebot.py:136-141 | The joined body is blank (the directive is ignored) exactly when every line is blank. |
| Directive.BlankConcat | sphinxcontrib/shoebot.py:138 | A concatenation is blank exactly when both parts are. |
| Naming.Utf8Char | sphinxcontrib/shoebot.py:171 | UTF-8 takes one to four bytes per character, one byte exactly for ASCII, and that byte is the code. |
| Naming.Utf8 | sphinxcontrib/shoebot.py:171 | `encode('utf-8')` takes between one and four bytes per character. |
| Naming.Utf8Ascii | sphinxcontrib/shoebot.py:171 | An ASCII text encodes to its character codes, one byte each. |
| Naming.HexDigit | sphinxcontrib/shoebot.py:171 | The rendering of a value below 16 is a lower-case hexadecimal digit. |
| Naming.HexDigest | sphinxcontrib/shoebot.py:171 | `hexdigest()` writes two lower-case hexadecimal digits per byte. |
| Naming.HexValue | sphinxcontrib/shoebot.py:171 | A hexadecimal digit has a value below 16. |
| Naming.UnHexHexDigest | sphinxcontrib/shoebot.py:171 | A digest is read back from its hex rendering (round trip). |
| Naming.UnHexPair | sphinxcontrib/shoebot.py:171 | Two digits in front read as one byte: the high digit times 16 plus the low digit. |
| Naming.HexDigestInjective | sphinxcontrib/shoebot.py:171 | Two digests have the same hex rendering exactly when they are equal. |
| Naming.HashIdIsHexText | sphinxcontrib/shoebot.py:170-171 | `get_hashid` always gives 40 bytes, each the code of a lower-case hexadecimal digit. |
| Naming.HashId | sphinxcontrib/shoebot.py:170-171 | Definition of `get_hashid`: SHA-1 of the UTF-8 text, hex digest, encoded as UTF-8 again. |
| Naming.NameDigest | sphinxcontrib/shoebot.py:184-186 | Definition of the digest in the file name: SHA-1 of `get_hashid(code)`. |
| Naming.OutputName | sphinxcontrib/shoebot.py:184-186 | Definition of the file name `prefix-<hex digest>.<format>`. |
| Naming.ParseOutputNameRoundTrip | sphinxcontrib/shoebot.py:184-186 | The file name `prefix-<digest>.<format>` reads back as the digest of `sha1(get_hashid(code))`. |
| Naming.OutputNameCollision | sphinxcontrib/shoebot.py:184-186 | With the prefix and format fixed, two codes get the same file name exactly when their digests are equal. |
| Naming.PathJoin | sphinxcontrib/shoebot.py:187-188 | `posixpath.join(a, b)` ends with `b`. |
| Naming.PathJoinInjective | sphinxcontrib/shoebot.py:187-188 | Under one directory, two relative names give the same path exactly when they are equal. |
| Naming.Dirname | sphinxcontrib/shoebot.py:205-207 | `posixpath.dirname(p)` is a prefix of `p`. |
| Naming.DirnameJoin | sphinxcontrib/shoebot.py:205-207 | The directory of a slash-free name joined under a directory is that directory (the engine runs in the source directory). |
| Naming.RelFn | sphinxcontrib/shoebot.py:187 | Definition of `relfn`: the file name joined under the builder's `imgpath`. |
| Naming.OutFn | sphinxcontrib/shoebot.py:188 | Definition of `outfn`: the file name joined under `outdir` and `imagedir`. |
| Naming.OutFnCollision | sphinxcontrib/shoebot.py:184-188 | Two codes are written to the same output file exactly when their digests are equal. |
| Render.Imports | sphinxcontrib/shoebot.py:215-216 | One `ximport` call per library, in order. |
| Render.EnginePlan | sphinxcontrib/shoebot.py:211-217 | The only exception the extension itself raises in the `with` body is the `TypeError` of an option that does not iterate. |
| Render.AfterCreate | sphinxcontrib/shoebot.py:213-217 | After `create_bot`, only the `TypeError` of a size or an ximports option that does not iterate can be raised by the extension itself. |
| Render.AfterSetup | sphinxcontrib/shoebot.py:215-217 | After the setup, only the `TypeError` of an ximports option that does not iterate can be raised by the extension itself. |
| Render.Perform | sphinxcontrib/shoebot.py:211-217 | The engine takes a prefix of the planned calls. Nothing is raised exactly when the plan raises nothing and the engine raises at none of its calls. An engine that raises at call k takes k+1 calls and its exception is the one raised. Otherwise the plan runs as it is. |
| Render.Script | sphinxcontrib/shoebot.py:215-217 | Definition of the calls after the setup: one `ximport` per library, then `run(code)`. |
| Render.PerformFrom | sphinxcontrib/shoebot.py:211-217 | Definition of a plan carried out from call number `first`: an engine raising at a call within the plan takes the calls up to and including it and its exception replaces the rest; otherwise the plan runs as it is. |
| Render.PerformCons | sphinxcontrib/shoebot.py:211-217 | Carrying out a plan call by call: an engine that raises at the first call takes only that call and its exception is raised; otherwise the rest is carried out from the next call number. |
| Render.PerformCreate | sphinxcontrib/shoebot.py:211-212 | The first call is always `create_bot`; an engine that raises there makes no other call. |
| Render.EnginePlanComplete | sphinxcontrib/shoebot.py:211-217 | With options that iterate, the plan is create, size, background, one `ximport` per library, then run, in that order. |
| Render.CodeRunsUnlessRaised | sphinxcontrib/shoebot.py:211-217 | The code reaches the engine exactly when both options iterate and the engine does not raise before it; it is then the last call. |
| Render.Get | sphinxcontrib/shoebot.py:180-181 | Definition of `options.get(key, default)`: the stored value when the key is present, otherwise the default; used for `size` (default `DefaultSize`, the tuple `(100, 100)` of :180), `ximports` and `docname` (:203). |
| Render.WorkDir | sphinxcontrib/shoebot.py:203-207 | Definition of the engine's directory: that of `srcdir/filename` for a non-empty filename, otherwise that of `srcdir/docname` (docname defaulting to `index`); a docname that is not text is the `TypeError` of `path.join`. |
| Render.RenderPaths | sphinxcontrib/shoebot.py:184-188 | Definition of the two paths a rendering names, both ending in the output name. |
| Render.Attempt | sphinxcontrib/shoebot.py:190-232 | Definition of `render_shoebot` once the paths are named: the cache check, then the working directory, then the rendering in it. |
| Render.InDirectory | sphinxcontrib/shoebot.py:209-232 | Definition of the `chdir`, the `open` that creates the file, the engine, which may remove the file, the `chdir` back and the post-check; an exception inside the `with` block leaves the changed directory, and the file unless the engine removed it. |
| Render.RenderEffect | sphinxcontrib/shoebot.py:174-232 | Definition of `render_shoebot`: the paths, the `size` and `ximports` defaults, the working directory and the plan, put together by `Attempt`. |
| Render.CacheHit | sphinxcontrib/shoebot.py:190-191 | An existing file of the output name is returned with no engine call and nothing changed. |
| Render.AttemptLeavesCachedFile | sphinxcontrib/shoebot.py:190-219 | A rendering that reaches an engine which does not remove the output file leaves that file behind, also when the engine raised. The next rendering of that name is a cache hit. |
| Render.AttemptRemovedFileRendersAgain | sphinxcontrib/shoebot.py:190-230 | A rendering that reaches an engine which removes the output file, raising or not, ends in an error and leaves no file, so the next rendering of that name is no cache hit and runs the engine again. |
| Render.AttemptCwd | sphinxcontrib/shoebot.py:203-219 | A return, a failed post-check, or a working directory that cannot be computed leaves the working directory as found. An engine exception, or the `TypeError` of an option that does not iterate, raised inside the `with` block leaves it in the directory the engine ran in. |
| Render.AttemptPostCheck | sphinxcontrib/shoebot.py:227-232 | The "did not produce an output file" error is raised exactly for a fresh name, a usable working directory, a plan that raised nothing, and an engine that raises at none of the calls and removed the file. It names the working directory from before the engine ran, and the output file. |
| Render.RenderLeavesCachedFile | sphinxcontrib/shoebot.py:174-232 | After one `render_shoebot` that did not end with the file gone, the same call is a cache hit returning the same paths. |
| Render.RunNodeRendersWithDefaults | sphinxcontrib/shoebot.py:180-217 | A node built by `run` renders at the default size 100 by 100, without libraries, with exactly the four engine calls. |
| Render.NodeOptionsDefaults | sphinxcontrib/shoebot.py:180-207 | A node's options give the default size, no libraries, and the document's directory to run in. |
| Render.DefaultPlan | sphinxcontrib/shoebot.py:211-217 | With the default size and no libraries the plan is create, size (100, 100), background 1, run, and an engine that completes makes all four calls. |
| Render.ClassAttrSplits | sphinxcontrib/shoebot.py:259-260 | The `class` attribute splits back into the class names kept, and `shoebot` is always one of them. |
| Render.ClassNamesOrder | sphinxcontrib/shoebot.py:259-260 | The class names are the image class when given and non-empty, then `shoebot`, then the node's non-empty classes, in that order. |
| Render.ClassNames | sphinxcontrib/shoebot.py:259-260 | Definition of the class list `[imgcls, 'shoebot'] + classes` with `None` and empty names filtered out. |
| Render.ClassAttr | sphinxcontrib/shoebot.py:260 | Definition of the `class` attribute: the class names joined with spaces. |
| Render.AltText | sphinxcontrib/shoebot.py:266-267 | Definition of the alternative text: the `alt` argument, else the node's `alt`, else the encoded code stripped. |
| Render.AlignOpen | sphinxcontrib/shoebot.py:268-270 | Definition of the aligned `<div>` naming the alignment twice. |
| Render.LinkElement | sphinxcontrib/shoebot.py:273-282 | Definition of the linking element: an `<object>` for `svg`, an `<img>` with the alternative text for `png`. |
| Render.ImageBlock | sphinxcontrib/shoebot.py:271-284 | Definition of the six `svg` strings or the four `png` strings. |
| Render.HtmlFragment | sphinxcontrib/shoebot.py:268-304 | Definition of everything one node appends: the image block, inside the aligned `<div>` when the node has an `align`. |
| Render.AttributeAfterValue | sphinxcontrib/shoebot.py:269-282 | An attribute value without double quotes is read back from the element. |
| Render.ImageBlockLink | sphinxcontrib/shoebot.py:271-284 | The image block opens with the `shoebot` `<div>`, and the next element links the image path. |
| Render.AlignOpenRead | sphinxcontrib/shoebot.py:268-270 | The aligned `<div>` gives back its alignment; the `shoebot` `<div>` gives none. |
| Render.ReadHtmlFragment | sphinxcontrib/shoebot.py:268-304 | The alignment and the image path are read back from what a node appends (round trip). |
| Render.ReadUnaligned | sphinxcontrib/shoebot.py:271-284 | Reading a block not opened by an aligned `<div>`. |
| Render.ReadAligned | sphinxcontrib/shoebot.py:268-304 | Reading a block inside an aligned `<div>`. |
| Render.HtmlFragmentFrame | sphinxcontrib/shoebot.py:268-304 | A fragment has 6 strings for `svg` and 4 for `png`, plus 2 when aligned. It opens with the aligned `<div>` exactly when the node has an `align`, and it always ends with a closing `</div>`. |
| Render.HtmlReport | sphinxcontrib/shoebot.py:254-309 | Definition of the reporting of a rendering's result: a `ShoebotError` logged and skipped, another exception propagated, paths appending the fragment. |
| Render.HtmlAfter | sphinxcontrib/shoebot.py:245-309 | Definition of `render_shoebot_html` after the rendering: the files, directory and engine calls of the rendering, then the report. |
| Render.HtmlEffect | sphinxcontrib/shoebot.py:245-309 | Definition of `render_shoebot_html`: the format warning, or the rendering and its report, with the class and alternative text the source computes. |
| Render.HtmlBodyGrowsByFragment | sphinxcontrib/shoebot.py:254-309 | The body only grows, exactly when the rendering returned paths, and by the fragment linking them. A warning is logged exactly for a `ShoebotError`. Other exceptions propagate, and every other outcome skips the node. |
| Render.HtmlEffectBadFormat | sphinxcontrib/shoebot.py:249-257 | An output format other than `png` or `svg` is refused before `render_shoebot`: one warning, the node skipped, and no engine call, no file, no change of directory and nothing appended. |
| Render.HtmlRevisit | sphinxcontrib/shoebot.py:190-304 | After a visit that rendered, a second visit of the same node appends the same fragment again, makes no engine call and changes no file. |
| Render.HtmlTranslator.Call | sphinxcontrib/shoebot.py:212-217 | One engine call is logged, and it raises exactly at the engine's failing step. |
| Render.HtmlTranslator.RunImports | sphinxcontrib/shoebot.py:215-216 | The loop logs the `ximport` calls in order, up to and including the one the engine raises at, and fails exactly when the engine raises among them. |
| Render.HtmlTranslator.RunScript | sphinxcontrib/shoebot.py:215-217 | The libraries, then the run call, logged up to the failing call. |
| Render.HtmlTranslator.RunEngine | sphinxcontrib/shoebot.py:211-217 | The `with` body logs exactly the calls the engine takes under the plan, and raises exactly the plan's exception. |
| Render.HtmlTranslator.RunSize | sphinxcontrib/shoebot.py:213 | A size that does not iterate raises `TypeError` with nothing more logged; otherwise the calls from `bot.size` on are those of the plan. |
| Render.HtmlTranslator.RunSized | sphinxcontrib/shoebot.py:213-217 | `bot.size(*args)` is logged, then the rest of the plan, up to the failing call. |
| Render.HtmlTranslator.RunBackground | sphinxcontrib/shoebot.py:214-217 | `bot.background(1)` is logged, then the rest of the plan, up to the failing call. |
| Render.HtmlTranslator.RunAfterSetup | sphinxcontrib/shoebot.py:215-217 | After the setup: an ximports option that does not iterate raises `TypeError` with nothing logged; otherwise the libraries and then the code are logged up to the failing call, and the engine's exception is returned. |
| Render.HtmlTranslator.RenderShoebot | sphinxcontrib/shoebot.py:174-232 | The result, the engine log, the files and the working directory are exactly those of the `render_shoebot` specification. |
| Render.HtmlTranslator.RenderTo | sphinxcontrib/shoebot.py:190-232 | For named paths: the cache check, the working directory, the rendering. |
| Render.HtmlTranslator.RenderIn | sphinxcontrib/shoebot.py:209-232 | `chdir`, `open` (creating the file), the engine, `chdir` back, and the post-check. |
| Render.HtmlTranslator.AppendFragment | sphinxcontrib/shoebot.py:268-304 | The body grows by exactly the fragment for the format, path, class, alt text, code and alignment. |
| Render.HtmlTranslator.AppendObject | sphinxcontrib/shoebot.py:271-278 | The six `svg` strings, in order. |
| Render.HtmlTranslator.AppendImage | sphinxcontrib/shoebot.py:279-284 | The four `png` strings, in order. |
| Render.HtmlTranslator.Append | sphinxcontrib/shoebot.py:272 | `body.append` adds one string at the end. |
| Render.HtmlTranslator.RenderShoebotHtml | sphinxcontrib/shoebot.py:245-309 | The outcome and the new state are those of the `render_shoebot_html` specification. A format other than `png` or `svg` logs a warning and changes nothing else. The class and alt text are computed as the source does. |
| Render.HtmlTranslator.Report | sphinxcontrib/shoebot.py:254-309 | A `ShoebotError` is logged and skips the node, another exception propagates, and paths append the fragment. |
| Render.HtmlTranslator.HtmlVisit | sphinxcontrib/shoebot.py:312-313 | A visit renders the node's own code and options with the defaults for the other arguments. |
| Placeholders.ReadPlaceholder | sphinxcontrib/shoebot.py:372-385 | Only a text of the placeholder shape reads back. |
| Placeholders.Placeholder | sphinxcontrib/shoebot.py:372-385 | Definition of the placeholder: `[shoebot: <alt>]` for a node with an `alt`, `[shoebot]` otherwise. |
| Placeholders.ReadPlaceholderRoundTrip | sphinxcontrib/shoebot.py:372-385 | Every placeholder reads back as the `alt` it was written from (round trip). |
| Placeholders.ReadPlaceholderSound | sphinxcontrib/shoebot.py:372-385 | A text that reads back is the placeholder of what it reads as. |
| Placeholders.PlaceholderInjective | sphinxcontrib/shoebot.py:372-385 | Two nodes get the same placeholder exactly when their `alt` is the same. A node with an `alt`, even an empty one, never gets `[shoebot]`. |
| Placeholders.TextTranslator.Visit | sphinxcontrib/shoebot.py:372-377 | The text grows by exactly the placeholder for the node's `alt`. |
| Placeholders.ManTranslator.Visit | sphinxcontrib/shoebot.py:380-385 | The body grows by exactly the placeholder for the node's `alt`. |

## Left out

- I/O is modelled rather than performed.
  - The file system is the set of file names that exist, and the working
    directory is a string.
  - `ensuredir`, and directory creation in general, is assumed to succeed.
  - `os.chdir` is assumed to succeed.
  - Opening the output file always succeeds and creates it.
- The Shoebot engine is left out; whether the output file survives it, and
  at which call it raises if it does, are two independent parameters. The same holds for SHA-1, for Pygments'
  `highlight` (the highlighted code) and for the translator's `encode`.
- The `_shoebot_warned_shoebot` check (lines 193-195) is left out. The extension
  never sets the flag, so `render_shoebot` never returns `(None, None)`. The
  `fname is None` branch of `render_shoebot_html` (lines 262-263) is
  therefore unreachable and not modelled.
- The filename argument of `run` is one outcome, `FilenameArgumentUnsupported`;
  the commented-out code that would read the file is not modelled. Since
  `run` never sets the node's `filename`, `html_visit_shoebot` always passes
  `None`.
- `self.add_name(node)` (line 162) registers the node's `:name:`. The
  directive declares no `name` option, so it has no effect here and is left
  out.
- `figure_wrapper` (lines 62-72), `on_build_finished` and `setup` are left out.
  No modelled path calls the first, the second does nothing, and the third
  only registers the directive and visitors with Sphinx.
- The `raise nodes.SkipNode` that ends every HTML visit is the outcome
  `SkipNode`. The text and manual-page visitors always end that way, so their
  `Visit` methods return nothing and the SkipNode is not modelled for them.
- Logging is the list of warnings, each holding the code and the error. The
  `%r`/`%s` formatting of the logged line is not modelled.
- Translation of messages by `__()` and `_()` is taken as the identity.
- The text of each `ValueError` the option converters raise is not modelled;
  an error is its kind and the value it names (`OptionSpecs.ValueError`).
- PyStrings.Lower: lower-cases ASCII letters only; Python's `str.lower` also
  maps other Unicode upper-case letters.
- PyInt.ParseShowInt: holds for every integer in the model. CPython 3.11 and
  later refuse `str(n)` and `int(s)` beyond `sys.get_int_max_str_digits()`
  (4300 digits by default); that limit is not modelled.
- PyInt.ParseInt: reads ASCII digits only; Python's `int()` also accepts
  other Unicode decimal digits.
- Naming.PathJoin: `os.path.join` for `outfn` is modelled as `posixpath.join`;
  Windows paths are not modelled.
- Naming.Utf8: a Dafny `char` is a Unicode scalar value, so lone surrogates,
  which Python refuses to encode, cannot occur.
- Naming.HashId: SHA-1 is any function to 20-byte digests; its collision
  resistance is not modelled, so two codes with equal digests share a file.
- The options `alt` (`directives.unchanged`) and `filename` are taken as given
  text.

/** The option converters of the `shoebot` directive (`align_spec`,
    `size_spec`, `ximports_spec` in sphinxcontrib/shoebot.py): each turns the
    raw option text into a value or raises `ValueError`, which becomes `Err`. */
module OptionSpecs {
  import opened Wrappers
  import opened PyStrings
  import opened PyInt
  import opened PyValues

  /** The `ValueError`s the converters raise. */
  datatype ValueError =
    | SizeTypeError                  // size_spec: neither str nor tuple
    | InvalidLiteral(text: string)   // int(): the first piece that is not a number
    | XimportsTypeError              // ximports_spec: not a str
    | MissingChoice                  // directives.choice: the option has no value
    | UnknownChoice(argument: string) // directives.choice: not one of the choices

  /* ---------------------------------------------------------------- align */

  const AlignChoices: seq<string> := ["left", "center", "right"]

  /** `align_spec`, that is docutils' `choice(argument, ('left', 'center',
      'right'))`: the value, lower-cased and stripped, must be one of the three
      choices, and that normalised choice is the result. A missing value and an
      unknown one are errors. */
  function AlignSpec(argument: Option<string>): (r: Result<string, ValueError>)
    ensures r.Ok? ==> r.value in AlignChoices
    ensures argument.None? ==> r == Err(MissingChoice)
    ensures argument.Some? && r.Err? ==> r == Err(UnknownChoice(argument.value))
  {
    match argument
    case None => Err(MissingChoice)
    case Some(a) =>
      var v := StripSpace(Lower(a));
      if v in AlignChoices then Ok(v) else Err(UnknownChoice(a))
  }

  /** Each choice, written as it is, is accepted unchanged. */
  lemma AlignSpecAcceptsChoice(choice: string)
    requires choice in AlignChoices
    ensures AlignSpec(Some(choice)) == Ok(choice)
  {
    ChoiceLetters(choice);
    LowerUntouched(choice);
    ChoiceUnpadded(choice);
  }

  /** The choices are written in lower-case ASCII letters. */
  lemma ChoiceLetters(choice: string)
    requires choice in AlignChoices
    ensures choice != [] && forall i :: 0 <= i < |choice| ==> 'a' <= choice[i] <= 'z'
  {
    if choice == "left" {
    } else if choice == "center" {
    } else {
      assert choice == "right";
    }
  }

  /** Decoding a decoded alignment again gives it back unchanged. */
  lemma AlignSpecIdempotent(argument: Option<string>)
    requires AlignSpec(argument).Ok?
    ensures AlignSpec(Some(AlignSpec(argument).value)) == AlignSpec(argument)
  {
    AlignSpecAcceptsChoice(AlignSpec(argument).value);
  }

  /** Any spelling of a choice that lower-cases to it, with white space on
      either side, is accepted as that choice. */
  lemma AlignSpecIgnoresCaseAndSpace(pre: string, spelling: string, post: string, choice: string)
    requires choice in AlignChoices && Lower(spelling) == choice
    requires IsBlank(pre) && IsBlank(post)
    ensures AlignSpec(Some(pre + spelling + post)) == Ok(choice)
  {
    assert Lower(pre + spelling + post) == pre + choice + post by {
      LowerAppend(pre + spelling, post);
      LowerAppend(pre, spelling);
      BlankLower(pre);
      BlankLower(post);
    }
    assert StripSpace(pre + choice + post) == choice by {
      ChoiceUnpadded(choice);
      StripPadded(pre, choice, post, IsSpace);
    }
  }

  /** Conversely, only such spellings are accepted: an accepted text is a
      spelling of the choice returned, with white space on either side. */
  lemma AlignSpecOnlySpellings(a: string, c: string)
    requires AlignSpec(Some(a)) == Ok(c)
    ensures exists pre, spelling, post ::
              && a == pre + spelling + post
              && IsBlank(pre) && IsBlank(post)
              && Lower(spelling) == c
  {
    ChoiceLetters(c);
    var pre, spelling, post := SpellingOf(a);
  }

  /** Both directions together: `align_spec` accepts a text as `c` exactly
      when `c` is a choice and the text spells it, lower-cased, between white
      space. */
  lemma AlignSpecAcceptsExactly(a: string, c: string)
    ensures AlignSpec(Some(a)) == Ok(c) <==>
              c in AlignChoices &&
              exists pre, spelling, post ::
                && a == pre + spelling + post
                && IsBlank(pre) && IsBlank(post)
                && Lower(spelling) == c
  {
    if AlignSpec(Some(a)) == Ok(c) {
      AlignSpecOnlySpellings(a, c);
    } else if c in AlignChoices {
      if exists pre, spelling, post :: a == pre + spelling + post && IsBlank(pre) && IsBlank(post) && Lower(spelling) == c {
        var pre, spelling, post :| a == pre + spelling + post && IsBlank(pre) && IsBlank(post) && Lower(spelling) == c;
        AlignSpecIgnoresCaseAndSpace(pre, spelling, post, c);
        assert false;
      }
    }
  }

  /** A text whose lower case is not blank is the spelling of its stripped
      lower case, padded with white space. */
  lemma SpellingOf(a: string) returns (pre: string, spelling: string, post: string)
    requires StripSpace(Lower(a)) != []
    ensures a == pre + spelling + post
    ensures IsBlank(pre) && IsBlank(post)
    ensures Lower(spelling) == StripSpace(Lower(a))
  {
    var low := Lower(a);
    var k, m := StripBounds(low, IsSpace);
    pre, spelling, post := a[..k], a[k..|a| - m], a[|a| - m..|a|];
    ThreeSlices(a, k, |a| - m);
    LowerSlice(a, k, |a| - m);
    BlankUnderLower(a, 0, k);
    BlankUnderLower(a, |a| - m, |a|);
  }

  /** A stretch of a text that is white space once lower-cased is white
      space already. */
  lemma BlankUnderLower(a: string, i: nat, j: nat)
    requires i <= j <= |a|
    requires forall k :: i <= k < j ==> IsSpace(Lower(a)[k])
    ensures IsBlank(a[i..j])
  {
    forall k | i <= k < j ensures IsSpace(a[k]) {
      LowerAt(a, k);
      LowerKeepsSpace(a[k]);
    }
  }

  /** A prefix of a choice is not a choice: `"lef"` is refused. */
  lemma AlignSpecRejectsPrefix()
    ensures AlignSpec(Some("lef")) == Err(UnknownChoice("lef"))
  {
    var a := "lef";
    LowerUntouched(a);
    assert StripSpace(a) == a by {
      assert !IsSpace(a[0]) && !IsSpace(a[2]);
    }
    assert a !in AlignChoices by {
      assert |a| == 3;
      assert |AlignChoices[0]| == 4 && |AlignChoices[1]| == 6 && |AlignChoices[2]| == 5;
    }
  }

  /** White space is not changed by lower-casing. */
  lemma BlankLower(s: string)
    requires IsBlank(s)
    ensures Lower(s) == s
  {
    forall i | 0 <= i < |s| ensures !('A' <= s[i] <= 'Z') {
      assert IsSpace(s[i]);
    }
    LowerUntouched(s);
  }

  /** A choice neither starts nor ends with white space. */
  lemma ChoiceUnpadded(choice: string)
    requires choice in AlignChoices
    ensures choice != [] && !IsSpace(choice[0]) && !IsSpace(choice[|choice| - 1])
  {
    ChoiceLetters(choice);
    assert 'a' <= choice[0] <= 'z' && 'a' <= choice[|choice| - 1] <= 'z';
  }

  /** For instance `" Center"` is read as `"center"`. */
  lemma AlignSpecNormalises()
    ensures AlignSpec(Some(" Center")) == Ok("center")
  {
    var a := "Center";
    assert " " + a + "" == " Center" by {
      assert " " + a == " Center";
    }
    assert Lower(a) == "center" by {
      assert a[1..] == "enter";
      LowerUntouched(a[1..]);
    }
    AlignSpecIgnoresCaseAndSpace(" ", a, "", "center");
  }

  /* ----------------------------------------------------------------- size */

  /** `tuple(map(int, pieces))`: every piece converted in order; the first piece
      that is not a number is the error. */
  function ParseInts(pieces: seq<string>): (r: Result<seq<int>, ValueError>)
    ensures r.Ok? <==> forall i :: 0 <= i < |pieces| ==> ParseInt(pieces[i]).Some?
    ensures r.Ok? ==> |r.value| == |pieces|
    ensures r.Ok? ==> forall i :: 0 <= i < |pieces| ==> ParseInt(pieces[i]) == Some(r.value[i])
    ensures r.Err? ==> r.error.InvalidLiteral? && r.error.text in pieces && ParseInt(r.error.text).None?
    ensures r.Err? ==> exists k :: 0 <= k < |pieces| && pieces[k] == r.error.text
                                   && forall j :: 0 <= j < k ==> ParseInt(pieces[j]).Some?
  {
    MapParse(pieces, ParseInt)
  }

  /** Converting every piece with `parse`, in order, stopping at the first
      piece it refuses. */
  function MapParse(pieces: seq<string>, parse: string -> Option<int>): (r: Result<seq<int>, ValueError>)
    ensures r.Ok? <==> forall i :: 0 <= i < |pieces| ==> parse(pieces[i]).Some?
    ensures r.Ok? ==> |r.value| == |pieces|
    ensures r.Ok? ==> forall i :: 0 <= i < |pieces| ==> parse(pieces[i]) == Some(r.value[i])
    ensures r.Err? ==> r.error.InvalidLiteral? && r.error.text in pieces && parse(r.error.text).None?
    ensures r.Err? ==> exists k :: 0 <= k < |pieces| && pieces[k] == r.error.text
                                   && forall j :: 0 <= j < k ==> parse(pieces[j]).Some?
    decreases |pieces|
  {
    if pieces == [] then Ok([])
    else
      match parse(pieces[0])
      case None => Err(InvalidLiteral(pieces[0]))
      case Some(n) =>
        match MapParse(pieces[1..], parse)
        case Err(e) =>
          assert forall x :: x in pieces[1..] ==> x in pieces;
          RefusedAfterFirst(pieces, parse, e.text);
          Err(e)
        case Ok(ns) => Ok([n] + ns)
  }

  /** A piece that is the first refused after the head is the first refused
      of the whole sequence when the head converts. */
  lemma RefusedAfterFirst(pieces: seq<string>, parse: string -> Option<int>, text: string)
    requires |pieces| >= 1 && parse(pieces[0]).Some?
    requires exists k :: 0 <= k < |pieces| - 1 && pieces[1..][k] == text
                         && forall j :: 0 <= j < k ==> parse(pieces[1..][j]).Some?
    ensures exists k :: 0 <= k < |pieces| && pieces[k] == text
                        && forall j :: 0 <= j < k ==> parse(pieces[j]).Some?
  {
    var k :| 0 <= k < |pieces| - 1 && pieces[1..][k] == text
             && forall j :: 0 <= j < k ==> parse(pieces[1..][j]).Some?;
    forall j | 0 <= j < k + 1 ensures parse(pieces[j]).Some? {
      if j > 0 {
        assert pieces[j] == pieces[1..][j - 1];
      }
    }
    assert pieces[k + 1] == text;
  }

  /** The integers of a size as a Python tuple. */
  function IntTuple(ns: seq<int>): (v: PyValue)
    ensures v.PyTuple? && |v.items| == |ns|
    ensures forall i :: 0 <= i < |ns| ==> v.items[i] == PyInt(ns[i])
  {
    PyTuple(seq(|ns|, i requires 0 <= i < |ns| => PyInt(ns[i])))
  }

  /** `size_spec`: a tuple is returned as it is; a string becomes the tuple of
      its comma-separated pieces converted by `int()`, one per piece, so one more
      than it has commas; any other value is refused. */
  function SizeSpec(argument: PyValue): (r: Result<PyValue, ValueError>)
    ensures argument.PyTuple? ==> r == Ok(argument)
    ensures !argument.PyTuple? && !argument.PyStr? ==> r == Err(SizeTypeError)
    ensures argument.PyStr? && r.Ok? ==>
              var pieces := Split(argument.s, ',');
              && r.value.PyTuple?
              && |r.value.items| == Occurrences(argument.s, ',') + 1
              && forall i :: 0 <= i < |pieces| ==> ParseInt(pieces[i]).Some? && r.value.items[i] == PyInt(ParseInt(pieces[i]).value)
    ensures argument.PyStr? && r.Err? ==>
              r.error.InvalidLiteral? && r.error.text in Split(argument.s, ',') && ParseInt(r.error.text).None?
    ensures argument.PyStr? && r.Err? ==>
              var pieces := Split(argument.s, ',');
              exists k :: 0 <= k < |pieces| && pieces[k] == r.error.text
                          && forall j :: 0 <= j < k ==> ParseInt(pieces[j]).Some?
  {
    match argument
    case PyTuple(_) => Ok(argument)
    case PyStr(s) =>
      (match ParseInts(Split(s, ','))
       case Ok(ns) => Ok(IntTuple(ns))
       case Err(e) => Err(e))
    case _ => Err(SizeTypeError)
  }

  /** A size whose first number is preceded by U+001C is refused, naming that
      piece: `int()` does not skip the ASCII separators. */
  lemma SizeSpecRejectsSeparator()
    ensures SizeSpec(PyStr("\U{1C}5,5")) == Err(InvalidLiteral("\U{1C}5"))
  {
    var pieces := ["\U{1C}5", "5"];
    assert Join(pieces, ',') == "\U{1C}5,5" by {
      JoinCons(pieces[0], pieces[1..], ',');
      assert pieces[1..] == ["5"];
    }
    assert Split("\U{1C}5,5", ',') == pieces by {
      SplitJoin(pieces, ',');
    }
    assert ParseInt(pieces[0]).None? && ParseInt(pieces[1]).Some? by {
      ParseIntRejectsSeparators();
      ParseDigits("5");
    }
  }

  /** `",".join(str(n) for n in ns)`: how a size is written. */
  function FormatSize(ns: seq<int>): string {
    Join(seq(|ns|, i requires 0 <= i < |ns| => ShowInt(ns[i])), ',')
  }

  /** A size written out as comma-separated integers decodes to exactly those
      integers (`size_spec("200,100") == (200, 100)`). */
  lemma SizeSpecFormatSize(ns: seq<int>)
    requires |ns| >= 1
    ensures SizeSpec(PyStr(FormatSize(ns))) == Ok(IntTuple(ns))
  {
    var shown := seq(|ns|, i requires 0 <= i < |ns| => ShowInt(ns[i]));
    forall i | 0 <= i < |shown| ensures ',' !in shown[i] {
      var t := shown[i];
      if ',' in t {
        var j :| 0 <= j < |t| && t[j] == ',';
        ShowIntChars(ns[i], j);
      }
    }
    SplitJoin(shown, ',');
    forall i | 0 <= i < |shown| ensures ParseInt(shown[i]) == Some(ns[i]) {
      ParseShowInt(ns[i]);
    }
    var r := ParseInts(shown);
    assert r.Ok?;
    assert r.value == ns;
  }

  /** The characters of `str(n)` are a minus sign and digits. */
  lemma ShowIntChars(n: int, j: nat)
    requires j < |ShowInt(n)|
    ensures ShowInt(n)[j] == '-' || IsDigit(ShowInt(n)[j])
  {
    if n < 0 && j > 0 {
      assert ShowInt(n)[j] == ShowNat(-n)[j - 1];
    }
  }

  /* ------------------------------------------------------------- ximports */

  /** The characters `ximports_spec` strips from both ends: " ()". */
  predicate IsListBracket(c: char) {
    c == ' ' || c == '(' || c == ')'
  }

  /** `ximports_spec`: a string, stripped of " ()" at both ends and split on
      commas, gives its non-empty pieces in order; anything else is refused. */
  function XimportsSpec(argument: PyValue): (r: Result<seq<string>, ValueError>)
    ensures r.Ok? <==> argument.PyStr?
    ensures r.Err? ==> r.error == XimportsTypeError
    ensures r.Ok? ==> forall i :: 0 <= i < |r.value| ==> r.value[i] != [] && ',' !in r.value[i]
    ensures r.Ok? ==> forall x :: x in r.value <==> x != [] && x in Split(Strip(argument.s, IsListBracket), ',')
    ensures r.Ok? ==> |r.value| <= Occurrences(Strip(argument.s, IsListBracket), ',') + 1
    ensures r.Ok? ==> r.value == DropEmpty(Split(Strip(argument.s, IsListBracket), ','))
  {
    match argument
    case PyStr(s) =>
      var pieces := Split(Strip(s, IsListBracket), ',');
      var names := DropEmpty(pieces);
      assert forall i :: 0 <= i < |names| ==> ',' !in names[i] by {
        forall i | 0 <= i < |names| ensures ',' !in names[i] {
          assert names[i] in pieces;
        }
      }
      Ok(names)
    case _ => Err(XimportsTypeError)
  }

  /** Library names that are non-empty, hold no comma and do not begin or end
      the list with a space or a parenthesis read back from their
      comma-separated form, with or without surrounding parentheses. */
  lemma XimportsSpecJoin(names: seq<string>, open: string, close: string)
    requires |names| >= 1
    requires forall i :: 0 <= i < |names| ==> names[i] != [] && ',' !in names[i]
    requires !IsListBracket(names[0][0]) && !IsListBracket(names[|names| - 1][|names[|names| - 1]| - 1])
    requires forall i :: 0 <= i < |open| ==> IsListBracket(open[i])
    requires forall i :: 0 <= i < |close| ==> IsListBracket(close[i])
    ensures XimportsSpec(PyStr(open + Join(names, ',') + close)) == Ok(names)
  {
    var j := Join(names, ',');
    JoinEnds(names, ',');
    StripPadded(open, j, close, IsListBracket);
    SplitJoin(names, ',');
    DropEmptyUntouched(names);
  }

  /** Comma-separated pieces, some of them possibly empty, decode to the
      non-empty ones in their order (`"a,,b"` gives `["a", "b"]`), when the
      list neither starts nor ends with a space or a parenthesis. */
  lemma XimportsSpecPieces(pieces: seq<string>, open: string, close: string)
    requires |pieces| >= 1
    requires forall i :: 0 <= i < |pieces| ==> ',' !in pieces[i]
    requires var j := Join(pieces, ','); j != [] && !IsListBracket(j[0]) && !IsListBracket(j[|j| - 1])
    requires forall i :: 0 <= i < |open| ==> IsListBracket(open[i])
    requires forall i :: 0 <= i < |close| ==> IsListBracket(close[i])
    ensures XimportsSpec(PyStr(open + Join(pieces, ',') + close)) == Ok(DropEmpty(pieces))
  {
    StripPadded(open, Join(pieces, ','), close, IsListBracket);
    SplitJoin(pieces, ',');
  }

  /** A join of non-empty pieces starts with the first piece's first character
      and ends with the last piece's last character. */
  lemma {:induction false} JoinEnds(xs: seq<string>, sep: char)
    requires |xs| >= 1
    requires forall i :: 0 <= i < |xs| ==> xs[i] != []
    ensures var j := Join(xs, sep);
      j != [] && j[0] == xs[0][0] && j[|j| - 1] == xs[|xs| - 1][|xs[|xs| - 1]| - 1]
    decreases |xs|
  {
    if |xs| > 1 {
      JoinEnds(xs[1..], sep);
    }
  }

  /** Without a string, no list of libraries; the empty bracket pair is none. */
  lemma XimportsSpecEmpty()
    ensures XimportsSpec(PyStr("()")) == Ok([])
    ensures XimportsSpec(PyStr(",,")) == Ok([])
  {
    assert Strip("()", IsListBracket) == "";
    assert Split("", ',') == [""];
    assert Strip(",,", IsListBracket) == ",,";
    assert Split(",,", ',') == ["", "", ""] by {
      assert ",,"[1..] == ",";
      assert ","[1..] == "";
      assert Split("", ',') == [""];
      assert Split(",", ',') == ["", ""];
    }
    assert DropEmpty(["", "", ""]) == [] by {
      assert ["", "", ""][1..] == ["", ""];
      assert ["", ""][1..] == [""];
      assert [""][1..] == [];
    }
  }
}

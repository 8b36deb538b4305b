/**
  The scripting client of `manual_tests/test_client.py`: how `run_one`
  turns one line of a script into a directive or an OSC message. A line
  loses one trailing newline and everything from its first `;`; each macro
  of `defines` is expanded, in the dict's order; the line is trimmed and
  split into words; then `#WAIT`, `#IMPORT`, `#DEFINE` and `#UNDEFINE`
  are directives, and any other line is a topic, optionally followed by a
  type word choosing the converter for the remaining words.

  Sleeping, reading an imported file and printing are not modelled: the
  outcome names the directive instead. The `float`, `float[]` and `blob`
  converters work on floating point and are not modelled either.
 */
module ScriptClient {
  import opened Wrappers
  import opened Text
  import opened Registry

  // ---------------------------------------------------------------------
  // Converters

  /** `is_int(s)`: whether `int(s)` succeeds, which takes at least one digit. */
  predicate IsInt(s: string)
    ensures IsInt(s) ==> exists i :: 0 <= i < |s| && IsDigit(s[i])
  {
    ParseInt(s).Some?
  }

  /** Every decimal rendering of an int is accepted, and `int` reads it back. */
  lemma IsIntOfStr(n: int)
    ensures IsInt(IntToStr(n)) && ParseInt(IntToStr(n)).value == n
  {
    ParseIntToStr(n);
  }

  /** The values `client.send_message` is given. */
  datatype Data = Text(s: string) | Texts(words: seq<string>) | IntData(n: int) | Ints(ns: seq<int>) | NoneData | BoolData(b: bool)

  /** What a converter makes of the words: a value, an exception, or a float-based converter. */
  datatype Converted = Converted(data: Data) | Failed(exc: Exc) | FloatBased(kind: string)

  /** The keys of `type_to_func`. */
  function Kinds(): set<string> {
    {"str", "str[]", "int", "int[]", "float", "float[]", "none", "blob", "bool"}
  }

  /** `[int(w) for w in ws]`: the ints, or `None` when some word is not one. */
  function ParseAll(ws: seq<string>): (r: Option<seq<int>>)
    ensures r.Some? <==> forall i :: 0 <= i < |ws| ==> IsInt(ws[i])
    ensures r.Some? ==> |r.value| == |ws| && forall i :: 0 <= i < |ws| ==> ParseInt(ws[i]) == Some(r.value[i])
  {
    if ws == [] then Some([])
    else
      match (ParseInt(ws[0]), ParseAll(ws[1..]))
      case (Some(n), Some(ns)) => Some([n] + ns)
      case _ => None
  }

  /** `type_to_func[kind](ws)`. */
  function Convert(kind: string, ws: seq<string>): (c: Converted)
    ensures c == Failed(KeyError) <==> kind !in Kinds()
    ensures c.FloatBased? <==> kind in {"float", "float[]", "blob"}
    ensures kind == "str" ==> c == Converted(Text(Join(ws, " ")))
    ensures kind == "str[]" ==> c == Converted(Texts(ws))
    ensures kind == "none" ==> c == Converted(NoneData)
    ensures kind in {"int", "bool"} ==>
      (c.Converted? <==> ws != [] && IsInt(ws[0]))
      && (ws == [] ==> c == Failed(IndexError))
      && (ws != [] && !IsInt(ws[0]) ==> c == Failed(ValueError))
    ensures kind == "int" && c.Converted? ==> c.data == IntData(ParseInt(ws[0]).value)
    ensures kind == "bool" && c.Converted? ==> c.data == BoolData(ParseInt(ws[0]).value != 0)
    ensures kind == "int[]" ==> (c.Converted? <==> forall i :: 0 <= i < |ws| ==> IsInt(ws[i]))
    ensures kind == "int[]" && c.Converted? ==>
      c.data.Ints? && |c.data.ns| == |ws| && forall i :: 0 <= i < |ws| ==> ParseInt(ws[i]) == Some(c.data.ns[i])
    ensures kind == "int[]" && !c.Converted? ==> c == Failed(ValueError)
  {
    if kind == "str" then Converted(Text(Join(ws, " ")))
    else if kind == "str[]" then Converted(Texts(ws))
    else if kind == "int" || kind == "bool" then
      if ws == [] then Failed(IndexError)
      else match ParseInt(ws[0])
        case None => Failed(ValueError)
        case Some(n) => Converted(if kind == "int" then IntData(n) else BoolData(n != 0))
    else if kind == "int[]" then
      match ParseAll(ws)
      case None => Failed(ValueError)
      case Some(ns) => Converted(Ints(ns))
    else if kind == "none" then Converted(NoneData)
    else if kind == "float" || kind == "float[]" || kind == "blob" then FloatBased(kind)
    else Failed(KeyError)
  }

  /** No type word has a digit at index 3. */
  lemma DigitNotKind(w: string)
    requires |w| > 3 && IsDigit(w[3])
    ensures w !in Kinds()
  {
  }

  /** `str(n)` for each `n`. */
  function Strs(ns: seq<int>): (ws: seq<string>)
    ensures |ws| == |ns| && forall i :: 0 <= i < |ns| ==> ws[i] == IntToStr(ns[i])
  {
    if ns == [] then [] else [IntToStr(ns[0])] + Strs(ns[1..])
  }

  /** The `int[]` converter reads back a list of ints written out in decimal. */
  lemma {:induction false} IntsRoundTrip(ns: seq<int>)
    ensures Convert("int[]", Strs(ns)) == Converted(Ints(ns))
  {
    var ws := Strs(ns);
    forall i | 0 <= i < |ns|
      ensures IsInt(ws[i]) && ParseInt(ws[i]) == Some(ns[i])
    {
      IsIntOfStr(ns[i]);
    }
    var c := Convert("int[]", ws);
    assert c.data.ns == ns;
  }

  // ---------------------------------------------------------------------
  // Macros

  /** The `defines` dict: its entries in insertion order. */
  type Defines = seq<(string, string)>

  /** `defines.get(name)`. */
  function Lookup(ds: Defines, name: string): Option<string> {
    if ds == [] then None else if ds[0].0 == name then Some(ds[0].1) else Lookup(ds[1..], name)
  }

  /** `defines[name] = value`: an existing key keeps its place; a new one goes last. */
  function SetDefine(ds: Defines, name: string, value: string): (r: Defines)
    ensures Lookup(r, name) == Some(value)
    ensures forall other :: other != name ==> Lookup(r, other) == Lookup(ds, other)
    ensures Lookup(ds, name).Some? ==> |r| == |ds| && forall i :: 0 <= i < |ds| ==> r[i].0 == ds[i].0
    ensures Lookup(ds, name).None? ==> r == ds + [(name, value)]
  {
    if ds == [] then [(name, value)]
    else if ds[0].0 == name then [(name, value)] + ds[1..]
    else [ds[0]] + SetDefine(ds[1..], name, value)
  }

  /** `del defines[name]` when present; nothing otherwise. */
  function Undefine(ds: Defines, name: string): (r: Defines)
    ensures Lookup(r, name) == None
    ensures forall other :: other != name ==> Lookup(r, other) == Lookup(ds, other)
    ensures |r| <= |ds|
    ensures Lookup(ds, name).None? ==> r == ds
  {
    if ds == [] then []
    else if ds[0].0 == name then Undefine(ds[1..], name)
    else [ds[0]] + Undefine(ds[1..], name)
  }

  /** Defining a new macro and undefining it again gives back the macros there were. */
  lemma DefineThenUndefine(ds: Defines, name: string, value: string)
    requires Lookup(ds, name).None?
    ensures Undefine(SetDefine(ds, name, value), name) == ds
  {
    UndefineLast(ds, name, value);
  }

  lemma {:induction false} UndefineLast(ds: Defines, name: string, value: string)
    requires Lookup(ds, name).None?
    ensures Undefine(ds + [(name, value)], name) == ds
  {
    if ds != [] {
      assert (ds + [(name, value)])[1..] == ds[1..] + [(name, value)];
      UndefineLast(ds[1..], name, value);
    }
  }

  /** The text `' #' + name + ' '` a macro replaces. */
  function Pattern(name: string): (p: string)
    ensures |p| == |name| + 3 && p[0] == ' ' && p[1] == '#' && p[|p| - 1] == ' '
  {
    " #" + name + " "
  }

  /**
    The loop over `defines.items()`, each replacing its macro with its
    value as intended: the value stays a separate word. A text without
    `#` uses no macro and is left as it is.
   */
  function Expand(s: string, ds: Defines): (r: string)
    ensures '#' !in s ==> r == s
  {
    if ds == [] then s
    else
      var last := ds[|ds| - 1];
      var prev := Expand(s, ds[..|ds| - 1]);
      ReplaceNoHash(prev, Pattern(last.0), " " + last.1 + " ");
      Replace(prev, Pattern(last.0), " " + last.1 + " ")
  }

  /**
    The loop as written: the surrounding spaces of `' #k '` are replaced
    together with the name, so the value is glued to its neighbours. A
    text without `#` is left as it is here too.
   */
  function ExpandAsWritten(s: string, ds: Defines): (r: string)
    ensures '#' !in s ==> r == s
  {
    if ds == [] then s
    else
      var last := ds[|ds| - 1];
      var prev := ExpandAsWritten(s, ds[..|ds| - 1]);
      ReplaceNoHash(prev, Pattern(last.0), last.1);
      Replace(prev, Pattern(last.0), last.1)
  }

  /** A pattern with `#` at index 1 does not occur in a text with no `#`, which is left alone. */
  lemma ReplaceNoHash(s: string, pat: string, rep: string)
    requires |pat| >= 2 && pat[1] == '#'
    ensures '#' !in s ==> Replace(s, pat, rep) == s
  {
    if '#' !in s {
      ReplaceNoHashWhen(s, pat, rep);
    }
  }

  lemma ReplaceNoHashWhen(s: string, pat: string, rep: string)
    requires |pat| >= 2 && pat[1] == '#' && '#' !in s
    ensures Replace(s, pat, rep) == s
  {
    forall i: nat ensures !OccursAt(s, pat, i) {
      if i + |pat| <= |s| {
        assert s[i..i + |pat|][1] == s[i + 1] != '#';
      }
    }
    ReplaceAbsent(s, pat, rep);
  }

  /**
    When the text before a pattern has no `#`, the first occurrence is the
    one after that text.
   */
  lemma {:induction false} ReplaceAfter(x: string, pat: string, y: string, rep: string)
    requires |pat| >= 2 && pat[0] != '#' && pat[1] == '#' && '#' !in x
    ensures Replace(x + pat + y, pat, rep) == x + rep + Replace(y, pat, rep)
    decreases |x|
  {
    var s := x + pat + y;
    if x == [] {
      assert s == pat + y;
      assert s[..|pat|] == pat;
      assert s[|pat|..] == y;
      assert Replace(s, pat, rep) == rep + Replace(y, pat, rep);
    } else {
      NotAtFront(x, pat, y);
      var t := x[1..] + pat + y;
      assert s[1..] == t;
      assert Replace(s, pat, rep) == [x[0]] + Replace(t, pat, rep);
      ReplaceAfter(x[1..], pat, y, rep);
      assert x == [x[0]] + x[1..];
    }
  }

  /** With text before it that has no `#`, the pattern does not start the string. */
  lemma NotAtFront(x: string, pat: string, y: string)
    requires |pat| >= 2 && pat[0] != '#' && pat[1] == '#' && '#' !in x && x != []
    ensures var s := x + pat + y; |s| >= |pat| && s[0] == x[0] && !(pat <= s)
  {
    var s := x + pat + y;
    assert s[1] == (if |x| >= 2 then x[1] else pat[0]);
  }

  // ---------------------------------------------------------------------
  // One line

  /** A single trailing newline removed. */
  function Chomp(line: string): (r: string)
    requires line != []
    ensures line[|line| - 1] == '\n' ==> r == line[..|line| - 1] && r + "\n" == line
    ensures line[|line| - 1] != '\n' ==> r == line
  {
    if line[|line| - 1] == '\n' then line[..|line| - 1] else line
  }

  /**
    The line after comments, macro expansion and trimming: no whitespace
    at either end, and a line with no comment, no macro use (or no macros
    defined) and no surrounding whitespace is read as it is.
   */
  function Cleaned(line: string, ds: Defines): (r: string)
    requires line != []
    ensures r == [] || (!IsSpace(r[0]) && !IsSpace(r[|r| - 1]))
    ensures PlainLine(line, ds) ==> r == line
  {
    PlainLineCleaned(line, ds);
    Strip(Expand(" " + Before(Chomp(line), ';') + " ", ds))
  }

  /** No comment, no macro use unless no macro is defined, no surrounding whitespace. */
  predicate PlainLine(line: string, ds: Defines) {
    line != [] && ';' !in line && ('#' !in line || ds == []) && !IsSpace(line[0]) && !IsSpace(line[|line| - 1])
  }

  lemma PlainLineCleaned(line: string, ds: Defines)
    requires line != []
    ensures PlainLine(line, ds) ==> Strip(Expand(" " + Before(Chomp(line), ';') + " ", ds)) == line
  {
    if PlainLine(line, ds) {
      assert Chomp(line) == line;
      assert Before(line, ';') == line;
      assert Expand(" " + line + " ", ds) == " " + line + " ";
      StripPadded(line);
    }
  }

  /** The same, with the macro expansion as written. */
  function CleanedAsWritten(line: string, ds: Defines): string
    requires line != []
  {
    Strip(ExpandAsWritten(" " + Before(Chomp(line), ';') + " ", ds))
  }

  /** The non-empty words of a list. */
  function NonEmpty(ws: seq<string>): (r: seq<string>)
    ensures forall i :: 0 <= i < |r| ==> r[i] != [] && r[i] in ws
    ensures (forall i :: 0 <= i < |ws| ==> ws[i] != []) ==> r == ws
  {
    if ws == [] then []
    else if ws[0] == [] then NonEmpty(ws[1..])
    else [ws[0]] + NonEmpty(ws[1..])
  }

  /** `[w for w in line.split(' ') if len(w) > 0]`. */
  function Words(s: string): (ws: seq<string>)
    ensures forall i :: 0 <= i < |ws| ==> ws[i] != [] && ' ' !in ws[i]
  {
    NonEmpty(Split(s, ' '))
  }

  /** Words written with single spaces between them are read back as they were. */
  lemma WordsOfJoin(ws: seq<string>)
    requires ws != []
    requires forall i :: 0 <= i < |ws| ==> ws[i] != [] && ' ' !in ws[i]
    ensures Words(Join(ws, " ")) == ws
  {
    SplitJoin(ws, ' ');
  }

  /** A trimmed line that is not blank has at least one word. */
  lemma FirstWord(s: string)
    requires s != [] && !IsSpace(s[0])
    ensures Words(s) != []
  {
    var parts := Split(s, ' ');
    if ' ' in s {
      assert IndexOf(s, ' ') > 0;
    }
    assert parts[0] != [];
  }

  /** What `run_one` did with a line. */
  datatype Outcome =
    /** An exception that escapes `run_one`. */
    | Raised(exc: Exc)
    /** A blank line after comments and macros: nothing happens. */
    | Blank
    | Waited(ms: int)
    | Imported(path: string)
    | MacroSet(name: string, value: string)
    | MacroDropped(name: string)
    | Sent(topic: string, data: Data)
    /** An exception caught and printed: nothing is sent. */
    | Reported(exc: Exc)
    /** A float-based converter, whose result is not modelled. */
    | Unmodelled(topic: string, kind: string, args: seq<string>)

  datatype Step = Step(outcome: Outcome, defines: Defines)

  /** The directives and the message a non-empty list of words stands for. */
  function Dispatch(ds: Defines, ws: seq<string>): (st: Step)
    requires ws != []
    ensures !st.outcome.Raised? && !st.outcome.Blank?
    ensures st.outcome.MacroSet? <==> |ws| >= 3 && ws[0] == "#DEFINE"
    ensures st.outcome.MacroSet? ==> st.defines == SetDefine(ds, ws[1], Join(ws[2..], " "))
    ensures |ws| == 2 && ws[0] == "#UNDEFINE" ==> st == Step(MacroDropped(ws[1]), Undefine(ds, ws[1]))
    ensures !st.outcome.MacroSet? && !st.outcome.MacroDropped? ==> st.defines == ds
    ensures |ws| == 1 ==> st == Step(Sent(ws[0], Text("NO ARGS PROVIDED")), ds)
    ensures st.outcome.Sent? && |ws| >= 2 ==> st.outcome.topic == ws[0] && Convert(ws[1], ws[2..]) == Converted(st.outcome.data)
    ensures st.outcome.Reported? ==> ws[0] == "#WAIT" || Convert(ws[1], ws[2..]) == Failed(st.outcome.exc)
  {
    if |ws| == 2 && ws[0] == "#WAIT" && IsInt(ws[1]) then
      var ms := ParseInt(ws[1]).value;
      Step(if ms >= 0 then Waited(ms) else Reported(ValueError), ds)
    else if |ws| == 2 && ws[0] == "#IMPORT" then Step(Imported(ws[1]), ds)
    else if |ws| >= 3 && ws[0] == "#DEFINE" then
      var value := Join(ws[2..], " ");
      Step(MacroSet(ws[1], value), SetDefine(ds, ws[1], value))
    else if |ws| == 2 && ws[0] == "#UNDEFINE" then Step(MacroDropped(ws[1]), Undefine(ds, ws[1]))
    else if |ws| == 1 then Step(Sent(ws[0], Text("NO ARGS PROVIDED")), ds)
    else Step(Message(ws[0], Convert(ws[1], ws[2..]), ws[2..]), ds)
  }

  /** The message for a topic and the converter's result, or the exception printed instead. */
  function Message(topic: string, c: Converted, args: seq<string>): Outcome {
    match c
    case Converted(data) => Sent(topic, data)
    case Failed(exc) => Reported(exc)
    case FloatBased(kind) => Unmodelled(topic, kind, args)
  }

  /** A first word that is not a directive makes the line a message on that topic. */
  lemma DispatchTopic(ds: Defines, ws: seq<string>)
    requires |ws| >= 2 && Plain(ws[0])
    ensures Dispatch(ds, ws) == Step(Message(ws[0], Convert(ws[1], ws[2..]), ws[2..]), ds)
  {
    assert ws[0][0] != '#';
  }

  /**
    `run_one(client, line)` with macros expanded as intended. An empty
    line fails on `line[-1]` before the `try`.
   */
  function RunOneAt(ds: Defines, line: string): (st: Step)
    ensures line == [] ==> st == Step(Raised(IndexError), ds)
    ensures line != [] && Cleaned(line, ds) == [] ==> st == Step(Blank, ds)
    ensures st.outcome.Raised? ==> line == []
  {
    if line == [] then Step(Raised(IndexError), ds) else RunCleaned(ds, Cleaned(line, ds))
  }

  /** `run_one(client, line)` as written: the same failure on an empty line, and no other exception. */
  function RunOneAsWritten(ds: Defines, line: string): (st: Step)
    ensures line == [] ==> st == Step(Raised(IndexError), ds)
    ensures st.outcome.Raised? ==> line == []
  {
    if line == [] then Step(Raised(IndexError), ds) else RunCleaned(ds, CleanedAsWritten(line, ds))
  }

  /** The rest of `run_one` once the line is cleaned: nothing for a blank line, else its words dispatched. */
  function RunCleaned(ds: Defines, s: string): (st: Step)
    requires s == [] || !IsSpace(s[0])
    ensures s == [] ==> st == Step(Blank, ds)
    ensures !st.outcome.Raised?
  {
    if s == [] then Step(Blank, ds)
    else
      FirstWord(s);
      Dispatch(ds, Words(s))
  }

  /** Everything from the first `;` on is a comment. */
  lemma CommentIgnored(ds: Defines, line: string, comment: string)
    requires line != [] && ';' !in line && '\n' !in line
    ensures RunOneAt(ds, line + ";" + comment) == RunOneAt(ds, line)
  {
    var whole := line + ";" + comment;
    var c := Chomp(whole);
    assert c == line + ";" + c[|line| + 1..];
    assert c[|line|] == ';' && c[..|line|] == line;
    assert Before(c, ';') == line;
  }

  /**
    A macro used as the last word is expanded to its value as separate
    words: the line behaves as if the value had been written out.
   */
  lemma MacroExpandsToWords(pre: string, name: string, value: string)
    requires name != [] && '#' !in pre && '#' !in value
    requires ';' !in pre && ';' !in name && ';' !in value
    requires name[|name| - 1] != '\n' && (value == [] || value[|value| - 1] != '\n')
    ensures RunOneAt([(name, value)], pre + " #" + name) == RunOneAt([(name, value)], pre + " " + value)
  {
    var ds := [(name, value)];
    var used := pre + " #" + name;
    var written := pre + " " + value;
    MacroUsed(pre, name, value);
    UncommentedLine(used);
    UncommentedLine(written);
    var padded := " " + written + " ";
    assert '#' !in padded by {
      assert forall i :: 0 <= i < |padded| ==> padded[i] == ' ' || padded[i] in pre || padded[i] in value;
    }
    assert Expand(padded, ds) == padded;
    assert Cleaned(used, ds) == Cleaned(written, ds);
  }

  /** The macro at the end of the padded line becomes its value between spaces. */
  lemma MacroUsed(pre: string, name: string, value: string)
    requires name != [] && '#' !in pre
    ensures Expand(" " + (pre + " #" + name) + " ", [(name, value)]) == " " + (pre + " " + value) + " "
  {
    var s := " " + (pre + " #" + name) + " ";
    var rep := " " + value + " ";
    ExpandOne(s, name, value);
    PaddedUse(pre, name);
    ReplaceAfter(" " + pre, Pattern(name), "", rep);
    assert Replace("", Pattern(name), rep) == "";
  }

  lemma PaddedUse(pre: string, name: string)
    ensures " " + (pre + " #" + name) + " " == (" " + pre) + Pattern(name) + ""
  {
  }

  /** With one macro, expansion is one replacement. */
  lemma ExpandOne(s: string, name: string, value: string)
    ensures Expand(s, [(name, value)]) == Replace(s, Pattern(name), " " + value + " ")
  {
    assert [(name, value)][..0] == [];
  }

  /** A line with no `;` and no trailing newline reaches the macro loop unchanged. */
  lemma UncommentedLine(line: string)
    requires line != [] && ';' !in line && line[|line| - 1] != '\n'
    ensures Before(Chomp(line), ';') == line
  {
  }

  /** Macro expansion as written glues the value to the word before it. */
  lemma MacroGluedAsWritten(pre: string, name: string, value: string)
    requires name != [] && '#' !in pre
    ensures ExpandAsWritten(" " + pre + " #" + name + " ", [(name, value)]) == " " + pre + value
  {
    var ds := [(name, value)];
    assert " " + pre + " #" + name + " " == (" " + pre) + Pattern(name) + "";
    assert ds[..0] == [];
    ReplaceAfter(" " + pre, Pattern(name), "", value);
  }

  /** One space of padding on each side is trimmed off again. */
  lemma StripPadded(t: string)
    requires t == [] || (!IsSpace(t[0]) && !IsSpace(t[|t| - 1]))
    ensures Strip(" " + t + " ") == t
  {
    var p := " " + t + " ";
    if t == [] {
      assert p == "  " && p[1..] == " " && p[1..][1..] == [];
      assert TrimLeft(p) == [];
      assert TrimRight([]) == [];
    } else {
      assert p == " " + (t + " ");
      LeftPad(t + " ");
      RightPad(t);
      assert TrimRight(TrimLeft(p)) == t;
    }
  }

  lemma LeftPad(u: string)
    requires u != [] && !IsSpace(u[0])
    ensures TrimLeft(" " + u) == u
  {
    assert (" " + u)[1..] == u;
  }

  lemma RightPad(t: string)
    requires t != [] && !IsSpace(t[|t| - 1])
    ensures TrimRight(t + " ") == t
  {
    assert (t + " ")[..|t|] == t;
  }

  /** A word with no whitespace, comment mark or macro mark. */
  predicate Word(w: string) {
    w != [] && forall i :: 0 <= i < |w| ==> !IsSpace(w[i]) && w[i] != ';'
  }

  /** A word that is not a directive or a macro either. */
  predicate Plain(w: string) {
    Word(w) && '#' !in w
  }

  /** Non-empty words joined by spaces start with the first word and end with the last. */
  lemma {:induction false} JoinEnds(ws: seq<string>)
    requires ws != [] && forall i :: 0 <= i < |ws| ==> ws[i] != []
    ensures var s := Join(ws, " "); s != [] && s[0] == ws[0][0] && s[|s| - 1] == ws[|ws| - 1][|ws[|ws| - 1]| - 1]
    ensures forall c :: c in Join(ws, " ") ==> c == ' ' || exists i :: 0 <= i < |ws| && c in ws[i]
  {
    if |ws| > 1 {
      JoinEnds(ws[1..]);
      var s := Join(ws, " ");
      assert s == ws[0] + " " + Join(ws[1..], " ");
      forall c | c in s ensures c == ' ' || exists i :: 0 <= i < |ws| && c in ws[i] {
        if c in Join(ws[1..], " ") && c != ' ' {
          var i :| 0 <= i < |ws[1..]| && c in ws[1..][i];
          assert c in ws[i + 1];
        }
      }
    }
  }

  /** Words joined by single spaces make a line with no comment and no surrounding whitespace. */
  lemma LineOfWords(ws: seq<string>)
    requires ws != [] && forall i :: 0 <= i < |ws| ==> Word(ws[i])
    ensures var line := Join(ws, " ");
      line != [] && ';' !in line && !IsSpace(line[0]) && !IsSpace(line[|line| - 1]) && Words(line) == ws
    ensures (forall i :: 0 <= i < |ws| ==> '#' !in ws[i]) ==> '#' !in Join(ws, " ")
  {
    JoinEnds(ws);
    forall i | 0 <= i < |ws| ensures ';' !in ws[i] && ' ' !in ws[i] {
      assert Word(ws[i]);
    }
    var last := ws[|ws| - 1];
    assert Word(ws[0]) && Word(last);
    assert !IsSpace(last[|last| - 1]);
    WordsOfJoin(ws);
  }

  /** A leading space is trimmed off a line that has no other surrounding whitespace. */
  lemma StripLeftPadded(t: string)
    requires t != [] && !IsSpace(t[0]) && !IsSpace(t[|t| - 1])
    ensures Strip(" " + t) == t
  {
    LeftPad(t);
  }

  /** A line of words is dispatched word for word. */
  lemma RunWords(ds: Defines, ws: seq<string>)
    requires ws != [] && forall i :: 0 <= i < |ws| ==> Word(ws[i])
    requires ds == [] || forall i :: 0 <= i < |ws| ==> '#' !in ws[i]
    ensures RunOneAt(ds, Join(ws, " ")) == Dispatch(ds, ws)
  {
    var line := Join(ws, " ");
    LineOfWords(ws);
    assert Cleaned(line, ds) == line;
  }

  /** `#DEFINE name value` defines the macro. */
  lemma DefineLine(name: string, value: string)
    requires Plain(name) && Plain(value)
    ensures RunOneAt([], "#DEFINE " + name + " " + value) == Step(MacroSet(name, value), [(name, value)])
  {
    var ws := ["#DEFINE", name, value];
    assert Join(ws, " ") == "#DEFINE " + name + " " + value;
    assert Word("#DEFINE");
    RunWords([], ws);
    assert ws[2..] == [value] && Join(ws[2..], " ") == value;
  }

  /**
    As written, `topic int #n` with `n` defined as the decimal `d` reads
    the type word `int` + `d` and sends nothing.
   */
  lemma UseLineAsWritten(topic: string, name: string, d: string)
    requires Plain(topic) && Plain(name) && Plain(d) && IsDigit(d[0])
    ensures RunOneAsWritten([(name, d)], topic + " int #" + name) == Step(Reported(KeyError), [(name, d)])
  {
    var ds := [(name, d)];
    var ws := [topic, "int" + d];
    RunGlued(topic, name, d);
    assert ("int" + d)[3] == d[0];
    DigitNotKind("int" + d);
    DispatchTopic(ds, ws);
    assert Convert(ws[1], ws[2..]) == Failed(KeyError);
  }

  lemma RunGlued(topic: string, name: string, d: string)
    requires Plain(topic) && Plain(name) && Plain(d)
    ensures RunOneAsWritten([(name, d)], topic + " int #" + name) == Dispatch([(name, d)], [topic, "int" + d])
  {
    GluedLine(topic, name, d);
  }

  /** As written, the line `topic int #n` is cleaned to the two words `topic` and `int` + `d`. */
  lemma GluedLine(topic: string, name: string, d: string)
    requires Plain(topic) && Plain(name) && Plain(d)
    ensures var ws := [topic, "int" + d];
      CleanedAsWritten(topic + " int #" + name, [(name, d)]) == Join(ws, " ") != [] && Words(Join(ws, " ")) == ws
  {
    var ds := [(name, d)];
    var line := topic + " int #" + name;
    assert line[|line| - 1] == name[|name| - 1] && ';' !in line;
    PaddedMacroLine(topic, name);
    MacroGluedAsWritten(topic + " int", name, d);
    var ws := [topic, "int" + d];
    assert Word("int" + d) && Word(topic);
    LineOfWords(ws);
    StripLeftPadded(Join(ws, " "));
    assert Chomp(line) == line;
    assert Before(line, ';') == line;
    GluedWords(topic, d);
  }

  lemma PaddedMacroLine(topic: string, name: string)
    ensures " " + (topic + " int #" + name) + " " == " " + (topic + " int") + " #" + name + " "
  {
  }

  /** `str(n)` is a plain word. */
  lemma DecimalPlain(n: int)
    ensures Plain(IntToStr(n))
  {
    IntToStrPlain(n);
    var m: nat := if n < 0 then -n else n;
    assert forall i :: 0 <= i < |NatToStr(m)| ==> IsDigit(NatToStr(m)[i]);
  }

  lemma SpacedWords(topic: string, d: string)
    ensures topic + " int" + " " + d == Join([topic, "int", d], " ")
  {
    var ws := [topic, "int", d];
    assert ws[1..] == ["int", d] && ws[1..][1..] == [d];
    assert Join(ws[1..], " ") == "int" + " " + d;
    assert Join(ws, " ") == topic + " " + ("int" + " " + d);
  }

  lemma MacroLine(topic: string, name: string)
    ensures topic + " int #" + name == topic + " int" + " #" + name
  {
  }

  lemma GluedWords(topic: string, d: string)
    ensures " " + (topic + " int") + d == " " + Join([topic, "int" + d], " ")
  {
    assert Join([topic, "int" + d], " ") == topic + " " + ("int" + d);
  }

  /** With the intended expansion, the same line sends the int on `topic`. */
  lemma UseLine(topic: string, name: string, n: int)
    requires Plain(topic) && Plain(name)
    ensures RunOneAt([(name, IntToStr(n))], topic + " int #" + name) == Step(Sent(topic, IntData(n)), [(name, IntToStr(n))])
  {
    var d := IntToStr(n);
    var ds := [(name, d)];
    DecimalPlain(n);
    var ws := [topic, "int", d];
    SpacedLine(topic, name, d);
    DispatchTopic(ds, ws);
    assert ws[2..] == [d];
    IsIntOfStr(n);
  }

  /** With the intended expansion, `topic int #n` is dispatched as the words `topic`, `int` and the value. */
  lemma SpacedLine(topic: string, name: string, d: string)
    requires Plain(topic) && Plain(name) && Plain(d)
    ensures RunOneAt([(name, d)], topic + " int #" + name) == Dispatch([(name, d)], [topic, "int", d])
  {
    var ds := [(name, d)];
    assert (topic + " int #" + name)[|topic + " int #" + name| - 1] == name[|name| - 1];
    MacroLine(topic, name);
    MacroExpandsToWords(topic + " int", name, d);
    SpacedWords(topic, d);
    RunIntWords(ds, topic, d);
  }

  lemma RunIntWords(ds: Defines, topic: string, d: string)
    requires Plain(topic) && Plain(d)
    ensures RunOneAt(ds, Join([topic, "int", d], " ")) == Dispatch(ds, [topic, "int", d])
  {
    var ws := [topic, "int", d];
    assert Plain(ws[0]) && Plain(ws[1]) && Plain(ws[2]);
    RunWords(ds, ws);
  }

  /**
    After `#DEFINE n 3`, the line `/t int #n` sends nothing as written,
    while the intended expansion sends 3 on `/t`.
   */
  lemma DefinedMacroAsWritten(topic: string, name: string, d: string)
    requires topic == "/t" && name == "n" && d == "3"
    ensures RunOneAt([], "#DEFINE " + name + " " + d).defines == [(name, d)]
    ensures RunOneAsWritten([(name, d)], topic + " int #" + name) == Step(Reported(KeyError), [(name, d)])
    ensures RunOneAt([(name, d)], topic + " int #" + name) == Step(Sent(topic, IntData(3)), [(name, d)])
  {
    assert Plain(topic) && Plain(name) && Plain(d);
    DefineLine(name, d);
    UseLineAsWritten(topic, name, d);
    assert IntToStr(3) == d;
    UseLine(topic, name, 3);
  }

  /** The message `run_one` hands to the client, if any. */
  function Sends(o: Outcome): seq<(string, Data)> {
    if o.Sent? then [(o.topic, o.data)] else []
  }

  /** The client and the global `defines` it keeps between lines. */
  class Client {
    var defines: Defines
    /** The messages sent, in order. */
    var sent: seq<(string, Data)>

    constructor ()
      ensures defines == [] && sent == []
    {
      defines := [];
      sent := [];
    }

    /** `run_one(self, line)`: the line is cleaned, then dispatched. */
    method RunOne(line: string) returns (outcome: Outcome)
      modifies this
      ensures Step(outcome, defines) == RunOneAt(old(defines), line)
      ensures sent == old(sent) + Sends(outcome)
    {
      var ds := defines;
      var st: Step;
      if line == [] {
        st := Step(Raised(IndexError), ds);
      } else {
        var s := Clean(line, ds);
        st := Perform(ds, s);
      }
      outcome := st.outcome;
      defines := st.defines;
      sent := sent + Sends(outcome);
    }
  }

  /** The directive or message of a cleaned line. */
  method Perform(ds: Defines, s: string) returns (st: Step)
    requires s == [] || !IsSpace(s[0])
    ensures st == RunCleaned(ds, s)
  {
    if s == [] {
      return Step(Blank, ds);
    }
    FirstWord(s);
    st := Dispatch(ds, Words(s));
  }

  /**
    The rewriting of `line` at the head of `run_one`: one trailing newline
    off, the comment off, a space on each side, each macro of `ds` expanded
    in turn, and the result trimmed.
   */
  method Clean(line: string, ds: Defines) returns (s: string)
    requires line != []
    ensures s == Cleaned(line, ds)
  {
    s := line;
    if s[|s| - 1] == '\n' {
      s := s[..|s| - 1];
    }
    s := Before(s, ';');
    s := " " + s + " ";
    ghost var padded := s;
    var i := 0;
    while i < |ds|
      invariant 0 <= i <= |ds|
      invariant s == Expand(padded, ds[..i])
    {
      assert ds[..i + 1][..i] == ds[..i];
      s := Replace(s, Pattern(ds[i].0), " " + ds[i].1 + " ");
      i := i + 1;
    }
    assert ds[..i] == ds;
    s := Strip(s);
  }
}

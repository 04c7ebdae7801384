/**
 * The bash translator: the template data it hands to the template engine
 * (heading, app config, style escapes, screen flow) and the bash it writes
 * itself (one `show_<screen>_screen` routine per screen, the exit routines
 * and the main loop), with the layout arithmetic of the option lines.
 */
module ToBash {
  import opened Wrappers
  import opened Document
  import opened Text
  import opened Schema
  import opened BashPrintf

  // ---------------------------------------------------------------------------
  // Template data

  /** The value under one top-level key of the template data. */
  datatype TemplateValue =
    | Heading(title: string, currentYear: int, authors: string, nacarVersion: string, currentDate: string)
    | AppConfig(screenWidth: int, appTitle: string)
    | Utilities(bashStyles: map<string, string>)
    | ScreenFlow(screens: seq<string>, screenOptions: map<string, seq<Option>>)

  const HeadingKey := "heading"
  const AppConfigKey := "app_config"
  const UtilitiesKey := "utilities"
  const ScreenFlowKey := "screen_flow"

  /** The ANSI escapes the generated script names BLD, DIM, UND, RED, GRN, YEL, BLU and END. */
  const BashStyles: map<string, string> := map[
    "BLD" := "$'\\e[1m'",
    "DIM" := "$'\\e[2m'",
    "UND" := "$'\\e[4m'",
    "RED" := "$'\\e[1;91m'",
    "GRN" := "$'\\e[1;32m'",
    "YEL" := "$'\\e[1;93m'",
    "BLU" := "$'\\e[1;34m'",
    "END" := "$'\\e[0m'"
  ]

  // ---------------------------------------------------------------------------
  // What the translator assumes of its blueprint

  /** Every screen has its options and every option a non-empty name: the translator subscripts both unguarded. */
  predicate Translatable(bp: Blueprint) {
    && AllOptionsPresent(bp)
    && forall i, j :: 0 <= i < |bp.screens.value| && 0 <= j < |bp.screens.value[i].options.value| ==>
         |bp.screens.value[i].options.value[j].name| > 0
  }

  /** A blueprint within the schema's bounds whose screens all carry options is translatable. */
  lemma ConformingIsTranslatable(bp: Blueprint)
    requires Conforms(bp, NacarSchema) && AllOptionsPresent(bp)
    ensures Translatable(bp)
  {
    var ss := bp.screens.value;
    forall i, j | 0 <= i < |ss| && 0 <= j < |ss[i].options.value|
      ensures |ss[i].options.value[j].name| > 0
    {
      assert ss[i] in ss;
      assert ss[i].options.value[j] in ss[i].options.value;
    }
  }

  lemma OptionsForNamed(bp: Blueprint, name: string)
    requires Translatable(bp) && name in GetScreenNames(bp)
    ensures forall j :: 0 <= j < |OptionsFor(bp, name)| ==> |OptionsFor(bp, name)[j].name| > 0
  {
    var i := FirstNamed(bp.screens.value, name).value;
    assert OptionsFor(bp, name) == bp.screens.value[i].options.value;
  }

  // ---------------------------------------------------------------------------
  // Option lines

  /** `len_right`: the pad that fills the line after the option name up to the width. */
  function LenRight(name: string, width: int): int {
    width - (|name| + 7)
  }

  /**
   * The printf format of an option: box side, the hot key (the first letter
   * upper-cased) between `[` `]` in the YEL style, the rest of the name
   * lower-cased, a space, `len_right` spaces, a space, the box side.
   */
  function OptionFormat(name: string, width: int): string
    requires |name| > 0
  {
    "\\U2502" + (" [" + ("${YEL}" + ([UpperChar(name[0])] + ("${END}" + ("]" + (Lower(name)[1..] + (" " +
      ("%" + IntToString(LenRight(name, width)) + "s" + (" " + ("\\U2502" + "\\n"))))))))))
  }

  function OptionLine(name: string, width: int): string
    requires |name| > 0
  {
    "    printf \"" + OptionFormat(name, width) + "\""
  }

  lemma UpperCharPlain(c: char)
    requires IsPlain(c)
    ensures IsPlain(UpperChar(c))
  {
  }

  /** A space, the box side and the newline. */
  lemma EndColumns()
    ensures Columns(" " + ("\\U2502" + "\\n")) == Some(2)
  {
    ColumnsNewline();
    ColumnsBoxSide("\\n");
    ColumnsPlain(" ", "\\U2502" + "\\n");
  }

  /** After the name: a space, `len_right` spaces, a space, the box side and the newline. */
  lemma PadColumns(n: int)
    ensures Columns(" " + ("%" + IntToString(n) + "s" + (" " + ("\\U2502" + "\\n"))))
         == Some(3 + (if n < 0 then -n else n))
  {
    var t9 := " " + ("\\U2502" + "\\n");
    EndColumns();
    ColumnsPad(n, t9);
    ColumnsPlain(" ", "%" + IntToString(n) + "s" + t9);
  }

  /** The two style expansions of an option line, as `${NAME}`. */
  lemma StyleExpansions()
    ensures "${YEL}" == "${" + "YEL" + "}" && "${END}" == "${" + "END" + "}"
  {
  }

  /** The hot key `c` between brackets, in the YEL style, before `rest`. */
  lemma StyledKeyColumns(c: char, rest: string)
    requires IsPlain(c)
    ensures Columns("${YEL}" + ([c] + ("${END}" + ("]" + rest)))) == Plus(2, Columns(rest))
  {
    var t4 := "${END}" + ("]" + rest);
    StyleExpansions();
    ColumnsPlain("]", rest);
    ColumnsStyle("END", "]" + rest);
    ColumnsPlain([c], t4);
    ColumnsStyle("YEL", [c] + t4);
  }

  /** Up to the name: the box side, a space, and the hot key in brackets. */
  lemma KeyColumns(key: char, rest: string)
    requires IsPlain(key)
    ensures Columns("\\U2502" + (" [" + ("${YEL}" + ([key] + ("${END}" + ("]" + rest))))))
         == Plus(5, Columns(rest))
  {
    var t2 := "${YEL}" + ([key] + ("${END}" + ("]" + rest)));
    StyledKeyColumns(key, rest);
    ColumnsPlain(" [", t2);
    ColumnsBoxSide(" [" + t2);
  }

  /** The hot key and the rest of the name before a tail of `m` columns. */
  lemma KeyAndNameColumns(key: char, lowered: string, tail: string, m: nat)
    requires IsPlain(key) && AllPlain(lowered) && Columns(tail) == Some(m)
    ensures Columns("\\U2502" + (" [" + ("${YEL}" + ([key] + ("${END}" + ("]" + (lowered + tail)))))))
         == Some(|lowered| + 5 + m)
  {
    ColumnsPlain(lowered, tail);
    KeyColumns(key, lowered + tail);
  }

  /** The format with the hot key, the rest of the name and the pad as parameters. */
  lemma FormatColumns(key: char, lowered: string, n: int)
    requires IsPlain(key) && AllPlain(lowered)
    ensures Columns("\\U2502" + (" [" + ("${YEL}" + ([key] + ("${END}" + ("]" + (lowered + (" " +
              ("%" + IntToString(n) + "s" + (" " + ("\\U2502" + "\\n")))))))))))
         == Some(|lowered| + 8 + (if n < 0 then -n else n))
  {
    PadColumns(n);
    KeyAndNameColumns(key, lowered, " " + ("%" + IntToString(n) + "s" + (" " + ("\\U2502" + "\\n"))),
                      3 + (if n < 0 then -n else n));
  }

  /**
   * The printed width of an option line is the name's length plus 7 plus the
   * magnitude of `len_right`: bash pads `%-Ns` as it pads `%Ns`.
   */
  lemma OptionFormatColumns(name: string, width: int)
    requires |name| > 0 && AllPlain(name)
    ensures Columns(OptionFormat(name, width))
         == Some(|name| + 7 + (if LenRight(name, width) < 0 then -LenRight(name, width) else LenRight(name, width)))
  {
    var lowered := Lower(name)[1..];
    assert AllPlain(lowered) by {
      forall k | 0 <= k < |lowered|
        ensures IsPlain(lowered[k])
      {
        assert lowered[k] == LowerChar(name[k + 1]);
      }
    }
    UpperCharPlain(name[0]);
    FormatColumns(UpperChar(name[0]), lowered, LenRight(name, width));
  }

  /** An option line is exactly as wide as the app when, and only when, the name leaves room for it. */
  lemma OptionLineFitsWidth(name: string, width: int)
    requires |name| > 0 && AllPlain(name)
    ensures Columns(OptionFormat(name, width)) == Some(width) <==> |name| + 7 <= width
    ensures |name| + 7 > width ==> Columns(OptionFormat(name, width)) == Some(2 * (|name| + 7) - width)
  {
    OptionFormatColumns(name, width);
  }

  /**
   * A `%` in an option name reaches the printf format unescaped, where it
   * starts a conversion: the width model does not measure that line.
   */
  lemma PercentNameUnmeasured()
    ensures LenRight("A%", 80) == 71
    ensures Columns(OptionFormat("A%", 80)) == None
  {
    var t := "%" + (" " + ("%" + IntToString(71) + "s" + (" " + ("\\U2502" + "\\n"))));
    assert t[0] == '%' && t[1] == ' ';
    assert DigitRun(t[1..]) == 0;
    assert Columns(t) == None;
    KeyColumns('A', t);
    assert Lower("A%")[1..] == "%";
  }

  /** The schema's bounds do not keep an option line inside the box: a 64-letter option in a 40-column app. */
  lemma ConformingOptionOverflows()
    ensures var bp := Blueprint("Menu", Meta(None, 40, true),
                                Some([Screen("home", Some([Action(seq(64, _ => 'a'), "true")]))]));
            && Conforms(bp, NacarSchema)
            && LenRight(seq(64, _ => 'a'), bp.meta.width) == -31
            && Columns(OptionFormat(seq(64, _ => 'a'), bp.meta.width)) == Some(102)
  {
    var name := seq(64, _ => 'a');
    var bp := Blueprint("Menu", Meta(None, 40, true), Some([Screen("home", Some([Action(name, "true")]))]));
    assert forall sc :: sc in bp.screens.value ==> ScreenConforms(sc, NacarSchema);
    OptionLineFitsWidth(name, 40);
  }

  // ---------------------------------------------------------------------------
  // Screen routines

  /** `1 + (max_options - len(options))`: the blank lines under the options of `name`. */
  function BottomPadding(bp: Blueprint, name: string): int
    requires Translatable(bp) && name in GetScreenNames(bp)
  {
    1 + (MaxOptionCount(bp) - |OptionsFor(bp, name)|)
  }

  /** Every screen box is as tall as the one with the most options, and pads with at least one line. */
  lemma BottomPaddingEqualisesScreens(bp: Blueprint, name: string)
    requires Translatable(bp) && name in GetScreenNames(bp)
    ensures |OptionsFor(bp, name)| + BottomPadding(bp, name) == MaxOptionCount(bp) + 1
    ensures BottomPadding(bp, name) >= 1
    ensures BottomPadding(bp, name) == 1 <==> |OptionsFor(bp, name)| == MaxOptionCount(bp)
  {
    var names := GetScreenNames(bp);
    var k :| 0 <= k < |names| && names[k] == name;
    assert bp.screens.value[k].name == name;
  }

  /** Within the schema's bounds, `print_screen_bottom` is handed between 1 and 999 lines. */
  lemma ConformingBottomPadding(bp: Blueprint, name: string)
    requires Conforms(bp, NacarSchema) && Translatable(bp) && name in GetScreenNames(bp)
    ensures 1 <= BottomPadding(bp, name) <= 999
  {
    BottomPaddingEqualisesScreens(bp, name);
    ConformingOptionCount(bp, name);
    ConformingMaxOptionCount(bp);
  }

  function OptionLines(options: seq<Option>, width: int): (lines: seq<string>)
    requires forall j :: 0 <= j < |options| ==> |options[j].name| > 0
    ensures |lines| == |options|
  {
    seq(|options|, j requires 0 <= j < |options| => OptionLine(options[j].name, width))
  }

  function ScreenHeader(name: string): seq<string> {
    ["show_" + Lower(name) + "_screen() {", "    print_screen_top"]
  }

  function ScreenFooter(name: string, bottomPadding: int): seq<string> {
    ["    print_screen_bottom " + IntToString(bottomPadding), "", "    check_keystroke $" + Upper(name) + "_SCREEN", "}"]
  }

  /** The routine that draws the screen `name`. */
  function ScreenBlock(bp: Blueprint, name: string): seq<string>
    requires Translatable(bp) && name in GetScreenNames(bp)
  {
    OptionsForNamed(bp, name);
    ScreenHeader(name) + OptionLines(OptionsFor(bp, name), bp.meta.width)
    + ScreenFooter(name, BottomPadding(bp, name))
  }

  predicate AllDeclared(bp: Blueprint, names: seq<string>) {
    forall k :: 0 <= k < |names| ==> names[k] in GetScreenNames(bp)
  }

  /** The routines of the screens `names`, in order. */
  function ScreenBlocks(bp: Blueprint, names: seq<string>): seq<string>
    requires Translatable(bp) && AllDeclared(bp, names)
  {
    if names == [] then []
    else ScreenBlocks(bp, names[..|names| - 1]) + ScreenBlock(bp, names[|names| - 1])
  }

  lemma ScreenBlocksSnoc(bp: Blueprint, names: seq<string>, i: int)
    requires Translatable(bp) && AllDeclared(bp, names) && 0 <= i < |names|
    ensures AllDeclared(bp, names[..i]) && AllDeclared(bp, names[..i + 1])
    ensures ScreenBlocks(bp, names[..i + 1]) == ScreenBlocks(bp, names[..i]) + ScreenBlock(bp, names[i])
  {
    assert names[..i + 1][..i] == names[..i];
  }

  lemma ScreenOptionsSnoc(bp: Blueprint, names: seq<string>, i: int)
    requires Translatable(bp) && AllDeclared(bp, names) && 0 <= i < |names|
    ensures (map s | s in names[..i] :: OptionsFor(bp, s))[names[i] := OptionsFor(bp, names[i])]
         == map s | s in names[..i + 1] :: OptionsFor(bp, s)
  {
    assert names[..i + 1] == names[..i] + [names[i]];
  }

  /** The number of lines: each screen contributes its options and six more. */
  function LineCount(bp: Blueprint, names: seq<string>): nat
    requires Translatable(bp) && AllDeclared(bp, names)
  {
    if names == [] then 0
    else LineCount(bp, names[..|names| - 1]) + |OptionsFor(bp, names[|names| - 1])| + 6
  }

  lemma {:induction false} ScreenBlocksLength(bp: Blueprint, names: seq<string>)
    requires Translatable(bp) && AllDeclared(bp, names)
    ensures |ScreenBlocks(bp, names)| == LineCount(bp, names)
    decreases |names|
  {
    if names != [] {
      ScreenBlocksLength(bp, names[..|names| - 1]);
    }
  }

  /** Line `2 + j` of a screen's routine draws its `j`-th option. */
  lemma OptionLineOfScreen(bp: Blueprint, name: string, j: int)
    requires Translatable(bp) && name in GetScreenNames(bp)
    requires 0 <= j < |OptionsFor(bp, name)|
    ensures |OptionsFor(bp, name)[j].name| > 0
    ensures ScreenBlock(bp, name)[2 + j] == OptionLine(OptionsFor(bp, name)[j].name, bp.meta.width)
  {
    OptionsForNamed(bp, name);
    var options := OptionsFor(bp, name);
    var optionLines := OptionLines(options, bp.meta.width);
    assert ScreenBlock(bp, name) == ScreenHeader(name) + optionLines + ScreenFooter(name, BottomPadding(bp, name));
    assert (ScreenHeader(name) + optionLines)[2 + j] == optionLines[j];
  }

  // ---------------------------------------------------------------------------
  // Exit routines and the main loop

  const InvokeActionOnExitLines := [
    "invoke_action_on_exit() {",
    "    clear_screen",
    "    eval $INVOKE_ON_EXIT",
    "}"
  ]

  const MadeWithLine := "    printf \"Exited \\U1F41A Made with Nacar \\n\\n\""
  const ExitedLine := "    printf \"Exited \\n\\n\""

  /** The exit screen: the "Made with Nacar" notice exactly when the blueprint asks for it. */
  function ShowExitScreenLines(showMadeWithOnExit: bool): (lines: seq<string>)
    ensures |lines| == 4 && lines[..2] == ["show_exit_screen() {", "    clear_screen"] && lines[3] == "}"
    ensures MadeWithLine in lines <==> showMadeWithOnExit
    ensures ExitedLine in lines <==> !showMadeWithOnExit
  {
    ["show_exit_screen() {", "    clear_screen"]
    + (if showMadeWithOnExit then [MadeWithLine] else [ExitedLine])
    + ["}"]
  }

  /** Ctrl+C runs the exit screen. */
  const TrapLines := [
    "",
    "# Capture Ctrl+C interrupts.",
    "trap '{ exit_screen; exit 1; }' INT",
    ""
  ]

  /** From the home screen, show the active screen until one breaks the loop. */
  const LoopLines := [
    "navigate_to $HOME_SCREEN",
    "",
    "while :; do",
    "    show_active_screen || break;",
    "done",
    ""
  ]

  /** On leaving: the exit action if one was chosen, the exit screen otherwise. */
  const OnExitLines := [
    "if [[ -n $INVOKE_ON_EXIT ]]; then",
    "    invoke_action_on_exit",
    "else",
    "    show_exit_screen",
    "fi",
    ""
  ]

  /** The fixed lines of the main loop section, after its title. */
  const MainLoopLines := TrapLines + LoopLines + OnExitLines

  /** The main loop section under the title `sectionTitle`. */
  function MainLoopCode(sectionTitle: string): string {
    Join("\n", [sectionTitle] + MainLoopLines)
  }

  lemma TrapLinesFree()
    ensures AllFree(TrapLines, '\n')
  {
  }

  lemma LoopLinesFree()
    ensures AllFree(LoopLines, '\n')
  {
  }

  lemma OnExitLinesFree()
    ensures AllFree(OnExitLines, '\n')
  {
  }

  /** No fixed line of the main loop holds a newline. */
  lemma MainLoopLinesFree()
    ensures AllFree(MainLoopLines, '\n')
  {
    TrapLinesFree();
    LoopLinesFree();
    OnExitLinesFree();
    AllFreeConcat(TrapLines, LoopLines, '\n');
    AllFreeConcat(TrapLines + LoopLines, OnExitLines, '\n');
  }

  /** Read back line by line, the main loop is its title and the fixed lines. */
  lemma MainLoopCodeLines(sectionTitle: string)
    requires Free(sectionTitle, '\n')
    ensures Split(MainLoopCode(sectionTitle), '\n') == [sectionTitle] + MainLoopLines
  {
    var lines := [sectionTitle] + MainLoopLines;
    MainLoopLinesFree();
    AllFreeConcat([sectionTitle], MainLoopLines, '\n');
    SplitJoin(lines, '\n');
  }

  /** The lines of the screen-rendering section before they are joined with newlines. */
  function RenderingParts(sectionTitle: string, screenLines: seq<string>, exitLines: seq<string>): seq<string> {
    [sectionTitle, ""] + screenLines + [""] + InvokeActionOnExitLines + [""] + exitLines + ["\n\n"]
  }

  lemma {:induction false} JoinSnoc(sep: string, parts: seq<string>, last: string)
    requires |parts| > 0
    ensures Join(sep, parts + [last]) == Join(sep, parts) + sep + last
    decreases |parts|
  {
    if |parts| == 1 {
      assert parts + [last] == [parts[0], last];
      assert [parts[0], last][1..] == [last];
    } else {
      assert (parts + [last])[1..] == parts[1..] + [last];
      JoinSnoc(sep, parts[1..], last);
    }
  }

  /** No line of the exit-action routine holds a newline. */
  lemma InvokeActionOnExitLinesFree()
    ensures AllFree(InvokeActionOnExitLines, '\n')
  {
  }

  /** The closing "\n\n" reads back as three empty lines after the exit routine. */
  lemma RenderingCodeLines(sectionTitle: string, screenLines: seq<string>, exitLines: seq<string>)
    requires Free(sectionTitle, '\n') && AllFree(screenLines, '\n') && AllFree(exitLines, '\n')
    ensures Split(Join("\n", RenderingParts(sectionTitle, screenLines, exitLines)), '\n')
         == [sectionTitle, ""] + screenLines + [""] + InvokeActionOnExitLines + [""] + exitLines + ["", "", ""]
  {
    var body := [sectionTitle, ""] + screenLines + [""] + InvokeActionOnExitLines + [""] + exitLines;
    assert RenderingParts(sectionTitle, screenLines, exitLines) == body + ["\n\n"];
    JoinSnoc("\n", body, "\n\n");
    JoinSnoc("\n", body, "");
    JoinSnoc("\n", body + [""], "");
    JoinSnoc("\n", body + ["", ""], "");
    assert body + [""] + [""] == body + ["", ""];
    assert body + ["", ""] + [""] == body + ["", "", ""];
    var joined := Join("\n", body);
    assert Join("\n", body + ["\n\n"]) == joined + "\n" + "\n\n";
    assert Join("\n", body + [""]) == joined + "\n" + "";
    assert Join("\n", body + ["", ""]) == joined + "\n" + "" + "\n" + "";
    assert Join("\n", body + ["", "", ""]) == joined + "\n" + "" + "\n" + "" + "\n" + "";
    assert joined + "\n" + "\n\n" == joined + "\n" + "" + "\n" + "" + "\n" + "";
    assert Join("\n", body + ["", "", ""]) == Join("\n", RenderingParts(sectionTitle, screenLines, exitLines));
    assert "\n" == ['\n'];
    InvokeActionOnExitLinesFree();
    AllFreeConcat([sectionTitle, ""], screenLines, '\n');
    AllFreeConcat([sectionTitle, ""] + screenLines, [""], '\n');
    AllFreeConcat([sectionTitle, ""] + screenLines + [""], InvokeActionOnExitLines, '\n');
    AllFreeConcat([sectionTitle, ""] + screenLines + [""] + InvokeActionOnExitLines, [""], '\n');
    AllFreeConcat([sectionTitle, ""] + screenLines + [""] + InvokeActionOnExitLines + [""], exitLines, '\n');
    AllFreeConcat(body, ["", "", ""], '\n');
    SplitJoin(body + ["", "", ""], '\n');
  }

  /** One option line after another, each assembled from its printf, key and pad snippets. */
  method BuildOptionLines(options: seq<Option>, width: int) returns (lines: seq<string>)
    requires forall j :: 0 <= j < |options| ==> |options[j].name| > 0
    ensures lines == OptionLines(options, width)
  {
    lines := [];
    for j := 0 to |options|
      invariant lines == OptionLines(options[..j], width)
    {
      var name := options[j].name;
      var printfSnippet := "    printf \"\\U2502 ";
      var keySnippet := "[${YEL}" + [UpperChar(name[0])] + "${END}]";
      var lenRight := width - (|name| + 7);
      var rightSnippet := "%" + IntToString(lenRight) + "s \\U2502\\n\"";
      OptionLineSnippets(name, width);
      lines := lines + [printfSnippet + keySnippet + Lower(name)[1..] + " " + rightSnippet];
      OptionLinesSnoc(options, j, width);
    }
    assert options[..|options|] == options;
  }

  lemma OptionLinesSnoc(options: seq<Option>, j: int, width: int)
    requires forall k :: 0 <= k < |options| ==> |options[k].name| > 0
    requires 0 <= j < |options|
    ensures OptionLines(options[..j + 1], width) == OptionLines(options[..j], width) + [OptionLine(options[j].name, width)]
  {
    var a := OptionLines(options[..j + 1], width);
    var b := OptionLines(options[..j], width) + [OptionLine(options[j].name, width)];
    assert |a| == |b|;
    forall k | 0 <= k < |a|
      ensures a[k] == b[k]
    {
      assert options[..j + 1][k].name == if k < j then options[..j][k].name else options[j].name;
    }
  }

  /** The routine of one screen: header, option lines, and the footer with its bottom padding. */
  method ShowScreenMethodLines(bp: Blueprint, screen: string) returns (lines: seq<string>)
    requires Translatable(bp) && screen in GetScreenNames(bp)
    ensures lines == ScreenBlock(bp, screen)
  {
    var options := GetOptionsForScreen(bp, screen).value.value;
    OptionsForNamed(bp, screen);
    var optionLines := BuildOptionLines(options, bp.meta.width);
    var maxOptions := GetMaxScreenOptionsInBlueprint(bp);
    var bottomPadding := 1 + (maxOptions.value - |options|);
    lines := ["show_" + Lower(screen) + "_screen() {", "    print_screen_top"] + optionLines
      + ["    print_screen_bottom " + IntToString(bottomPadding), "",
         "    check_keystroke $" + Upper(screen) + "_SCREEN", "}"];
  }

  // ---------------------------------------------------------------------------
  // The translator object

  class BlueprintToBash {
    const blueprint: Blueprint
    var screens: seq<string>
    var templateData: map<string, TemplateValue>

    constructor (blueprint: Blueprint)
      ensures this.blueprint == blueprint && screens == [] && templateData == map[]
    {
      this.blueprint := blueprint;
      screens := [];
      templateData := map[];
    }

    method SetTemplateData(data: map<string, TemplateValue>)
      modifies this
      ensures templateData == data && screens == old(screens)
    {
      templateData := data;
    }

    /** `set_screens`: the screen names of the blueprint, in order. */
    method SetScreens()
      modifies this
      ensures screens == GetScreenNames(blueprint) && templateData == old(templateData)
    {
      screens := GetScreenNames(blueprint);
    }

    /** The heading data; a blueprint without `authors` raises KeyError, as `meta['authors']` does. */
    method SetHeadingTemplateVariables(currentYear: int, currentDate: string, nacarVersion: string)
      returns (raised: Maybe<PyError>)
      modifies this
      ensures screens == old(screens)
      ensures blueprint.meta.authors.None? ==> raised == Some(KeyError("authors")) && templateData == old(templateData)
      ensures blueprint.meta.authors.Some? ==> raised == None && templateData == old(templateData)[HeadingKey :=
                Heading(blueprint.title, currentYear, Join(", ", blueprint.meta.authors.value), nacarVersion, currentDate)]
    {
      if blueprint.meta.authors.None? {
        return Some(KeyError("authors"));
      }
      var headingData := Heading(blueprint.title, currentYear, Join(", ", blueprint.meta.authors.value),
                                 nacarVersion, currentDate);
      SetTemplateData(templateData[HeadingKey := headingData]);
      return None;
    }

    method SetAppConfigTemplateVariables()
      modifies this
      ensures screens == old(screens)
      ensures templateData == old(templateData)[AppConfigKey := AppConfig(blueprint.meta.width, blueprint.title)]
    {
      SetTemplateData(templateData[AppConfigKey := AppConfig(blueprint.meta.width, blueprint.title)]);
    }

    method SetUtilitiesTemplateVariables()
      modifies this
      ensures screens == old(screens)
      ensures templateData == old(templateData)[UtilitiesKey := Utilities(BashStyles)]
    {
      SetTemplateData(templateData[UtilitiesKey := Utilities(BashStyles)]);
    }

    /** Maps every screen name to the options of the first screen of that name. */
    method SetScreenFlowTemplateVariables()
      requires Translatable(blueprint) && AllDeclared(blueprint, screens)
      modifies this
      ensures screens == old(screens)
      ensures templateData == old(templateData)[ScreenFlowKey :=
                ScreenFlow(screens, map s | s in screens :: OptionsFor(blueprint, s))]
    {
      var screenOptions: map<string, seq<Option>> := map[];
      var names := screens;
      for i := 0 to |names|
        invariant screens == names && templateData == old(templateData)
        invariant screenOptions == map s | s in names[..i] :: OptionsFor(blueprint, s)
      {
        var screen := names[i];
        var options := GetOptionsForScreen(blueprint, screen);
        ScreenOptionsSnoc(blueprint, names, i);
        screenOptions := screenOptions[screen := options.value.value];
      }
      assert names[..|names|] == names;
      SetTemplateData(templateData[ScreenFlowKey := ScreenFlow(screens, screenOptions)]);
    }

    /** The `show_<screen>_screen` routines of every screen, built line by line. */
    method GetShowScreenMethodsLines() returns (lines: seq<string>)
      requires Translatable(blueprint) && AllDeclared(blueprint, screens)
      ensures lines == ScreenBlocks(blueprint, screens)
    {
      lines := [];
      for i := 0 to |screens|
        invariant lines == ScreenBlocks(blueprint, screens[..i])
      {
        var screen := screens[i];
        var block := ShowScreenMethodLines(blueprint, screen);
        ScreenBlocksSnoc(blueprint, screens, i);
        lines := lines + block;
      }
      assert screens[..|screens|] == screens;
    }

    /** The screen-rendering section under the title `sectionTitle`. */
    method GetScreenRenderingCode(sectionTitle: string) returns (code: string)
      requires Translatable(blueprint) && AllDeclared(blueprint, screens)
      ensures code == Join("\n", RenderingParts(sectionTitle, ScreenBlocks(blueprint, screens),
                                                ShowExitScreenLines(blueprint.meta.showMadeWithOnExit)))
    {
      var methods := GetShowScreenMethodsLines();
      var screenRenderingCode := [sectionTitle, ""] + methods + [""] + InvokeActionOnExitLines + [""]
        + ShowExitScreenLines(blueprint.meta.showMadeWithOnExit) + ["\n\n"];
      code := Join("\n", screenRenderingCode);
    }

    /**
     * `translate_blueprint` up to the template rendering: the heading, app
     * config and utilities are set, the screen flow is not; the template
     * data that would be rendered is returned.
     */
    method TranslateBlueprint(currentYear: int, currentDate: string, nacarVersion: string)
      returns (r: Result<map<string, TemplateValue>, PyError>)
      modifies this
      ensures screens == old(screens)
      ensures blueprint.meta.authors.None? ==> r == Failure(KeyError("authors"))
      ensures r.Failure? ==> templateData == old(templateData)
      ensures r.Success? ==> r.value == templateData
      ensures r.Success? ==> templateData.Keys == old(templateData).Keys + {HeadingKey, AppConfigKey, UtilitiesKey}
      ensures r.Success? ==> forall k :: k in old(templateData) && k !in {HeadingKey, AppConfigKey, UtilitiesKey}
                                ==> templateData[k] == old(templateData)[k]
      ensures blueprint.meta.authors.Some? ==>
        && r.Success?
        && templateData[HeadingKey] == Heading(blueprint.title, currentYear, Join(", ", blueprint.meta.authors.value),
                                               nacarVersion, currentDate)
        && templateData[AppConfigKey] == AppConfig(blueprint.meta.width, blueprint.title)
        && templateData[UtilitiesKey] == Utilities(BashStyles)
    {
      var raised := SetHeadingTemplateVariables(currentYear, currentDate, nacarVersion);
      if raised.Some? {
        return Failure(raised.value);
      }
      SetAppConfigTemplateVariables();
      SetUtilitiesTemplateVariables();
      return Success(templateData);
    }
  }

  /** The snippets the translator concatenates form the option line. */
  lemma OptionLineSnippets(name: string, width: int)
    requires |name| > 0
    ensures "    printf \"\\U2502 " + ("[${YEL}" + [UpperChar(name[0])] + "${END}]") + Lower(name)[1..] + " "
            + ("%" + IntToString(width - (|name| + 7)) + "s \\U2502\\n\"")
         == OptionLine(name, width)
  {
    SnippetsReassociate(UpperChar(name[0]), Lower(name)[1..], IntToString(LenRight(name, width)));
  }

  lemma SnippetsReassociate(key: char, lowered: string, pad: string)
    ensures "    printf \"\\U2502 " + ("[${YEL}" + [key] + "${END}]") + lowered + " " + ("%" + pad + "s \\U2502\\n\"")
         == "    printf \"" + ("\\U2502" + (" [" + ("${YEL}" + ([key] + ("${END}" + ("]" + (lowered + (" " +
              ("%" + pad + "s" + (" " + ("\\U2502" + "\\n"))))))))))) + "\""
  {
  }
}

/** Saving and loading the manual price file, and synchronising it twice. */
module ManualPricingRuns {
  import opened Text
  import opened PricingRules
  import opened PricingRefresh
  import opened ManualPricing

  // ---- Assumed of number formats ----------------------------------------

  /** A price text the file can hold, that reads as a price which is written the same way. */
  ghost predicate Printable(num: Numerals, p: real) {
    var t := num.show(p);
    && t != "" && Trimmed(t) && OneLine(t) && t !in ["null", "~"]
    && num.read(t).Some? && num.read(t).value >= 0.0 && num.show(num.read(t).value) == t
  }

  /** Holds of every price format "g" and the reader: writing what was read of a written price writes it again. */
  ghost predicate SoundNumerals(num: Numerals) {
    forall p: real :: p >= 0.0 ==> Printable(num, p)
  }

  /** A price that six digits write exactly. */
  ghost predicate Exact(num: Numerals, p: Price) {
    p.Some? ==> p.value >= 0.0 && num.read(num.show(p.value)) == p
  }

  ghost predicate ExactFields(num: Numerals, f: Fields) {
    Exact(num, f.input) && Exact(num, f.cached) && Exact(num, f.output)
  }

  /** What comes back of a written price. */
  function Reread(num: Numerals, p: Price): Price {
    if p.None? || p.value < 0.0 then None else num.read(num.show(p.value))
  }

  function RereadFields(num: Numerals, f: Fields): Fields {
    Fields(Reread(num, f.input), Reread(num, f.cached), Reread(num, f.output))
  }

  /** A name that survives as a key of the file, whatever its base id. */
  ghost predicate PlainId(id: string) {
    id != "" && Trimmed(id) && OneLine(id) && id[0] != '#' && id != "models" && !IsQuote(id[0]) && !IsQuote(id[|id| - 1])
  }

  // ---- Lines ------------------------------------------------------------

  lemma {:induction false} SplitFirst(line: string, rest: string)
    requires OneLine(line)
    ensures Split(line + "\n" + rest) == [line] + Split(rest)
  {
    var s := line + "\n" + rest;
    if line == "" {
      assert s[1..] == rest;
    } else {
      SplitFirst(line[1..], rest);
      assert s[1..] == line[1..] + "\n" + rest;
      assert [line[0]] + line[1..] == line;
    }
  }

  lemma {:induction false} SplitOne(line: string)
    requires OneLine(line)
    ensures Split(line) == [line]
  {
    if line != "" {
      SplitOne(line[1..]);
      assert [line[0]] + line[1..] == line;
    }
  }

  lemma {:induction false} SplitJoined(lines: seq<string>)
    requires lines != [] && forall i :: 0 <= i < |lines| ==> OneLine(lines[i])
    ensures Split(Join(lines)) == lines
  {
    hide OneLine;
    if |lines| == 1 {
      SplitOne(lines[0]);
    } else {
      SplitJoined(lines[1..]);
      SplitFirst(lines[0], Join(lines[1..]));
    }
  }

  lemma {:induction false} ReadLinesOnward(num: Numerals, st: Loader, a: seq<string>, b: seq<string>)
    ensures ReadLines(num, st, a + b) == ReadLines(num, ReadLines(num, st, a), b)
  {
    hide ReadLine;
    if b == [] {
      assert a + b == a;
    } else {
      ReadLinesOnward(num, st, a, b[..|b| - 1]);
      assert (a + b)[..|a + b| - 1] == a + b[..|b| - 1];
    }
  }

  // ---- One line ---------------------------------------------------------

  lemma {:induction false} StripPadded(pad: string, s: string)
    requires s != "" && Trimmed(s) && forall i :: 0 <= i < |pad| ==> IsSpace(pad[i])
    ensures Strip(pad + s) == s && TrimEnd(pad + s) == pad + s && TrimStart(pad + s) == s
  {
    assert (pad + s)[|pad + s| - 1] == s[|s| - 1];
    if pad == "" {
      assert pad + s == s;
    } else {
      StripPadded(pad[1..], s);
      assert (pad + s)[1..] == pad[1..] + s;
    }
  }

  lemma {:induction false} FirstColon(s: string, rest: string)
    requires ':' !in s
    ensures ColonAt(s + ":" + rest) == |s|
  {
    if s != "" {
      FirstColon(s[1..], rest);
      assert (s + ":" + rest)[1..] == s[1..] + ":" + rest;
    } else {
      assert s + ":" + rest == ":" + rest;
    }
  }

  /** The three names of the file's fields. */
  ghost predicate FieldName(name: string) {
    name == "Input" || name == "Cached input" || name == "Output"
  }

  lemma FieldNamesArePlain(name: string)
    requires FieldName(name)
    ensures name != "" && Trimmed(name) && ':' !in name && name[0] != '#' && name[0] != 'v' && name[0] != 'm' && !IsSpace(name[0])
    ensures OneLine(name)
  {
  }

  /** The shape of a field's line: indented by four, neither skipped nor a header. */
  lemma FieldLineShape(name: string, text: string)
    requires FieldName(name) && text != "" && Trimmed(text)
    ensures var line, s := FieldLine(name, text), name + ": " + text;
      Strip(line) == s && TrimEnd(line) == line && StartsWith(line, "    ") && !IsSkipped(line) && !IsHeaderLine(line)
  {
    hide TrimStart, TrimEnd, FieldName, Strip;
    FieldNamesArePlain(name);
    var s, line := name + ": " + text, FieldLine(name, text);
    assert s[0] == name[0] && s[|s| - 1] == text[|text| - 1];
    StripPadded("    ", s);
    assert line[..4] == "    ";
    assert s[0] != "version: 1"[0] && s[0] != "models:"[0];
  }

  /** A field's line splits at its first colon into the name and the text. */
  lemma FieldLineParts(name: string, text: string)
    requires FieldName(name) && text != "" && Trimmed(text)
    ensures var s := name + ": " + text;
      && ':' in s && ColonAt(s) == |name| && Strip(s[..|name|]) == name && Strip(s[|name| + 1..]) == text
  {
    hide TrimStart, TrimEnd, FieldName, Strip, ColonAt;
    FieldNamesArePlain(name);
    var s := name + ": " + text;
    FirstColon(name, " " + text);
    assert s == name + ":" + (" " + text);
    assert s[..|name|] == name && s[|name| + 1..] == " " + text;
    StripPadded(" ", text);
    StripPadded("", name);
    assert "" + name == name;
    assert s[|name|] == ':';
  }

  lemma FieldLineReads(num: Numerals, st: Loader, name: string, text: string)
    requires FieldName(name) && text != "" && Trimmed(text)
    ensures ReadLine(num, st, FieldLine(name, text)) ==
            if st.current.Some? then SetField(st, Lower(name), ReadValue(num, text)) else st
  {
    hide TrimStart, TrimEnd, Strip, StartsWith, IsSkipped, IsHeaderLine, SetField, ReadValue, Lower, BaseId, Unquoted, ColonAt, FieldName, FieldLine;
    FieldLineShape(name, text);
    FieldLineParts(name, text);
  }

  lemma UnquotedPlain(id: string)
    requires id != "" && !IsQuote(id[0]) && !IsQuote(id[|id| - 1])
    ensures Unquoted(id) == id
  {
  }

  lemma NotDeeper(line: string)
    requires |line| > 2 && line[2] != ' '
    ensures !StartsWith(line, "    ")
  {
    assert |line| >= 4 ==> line[..4][2] == line[2];
    assert "    "[2] == ' ';
  }

  lemma NotModels(id: string)
    requires id != "models"
    ensures id + ":" != "models:" && id + ":" != "version: 1"
  {
    assert (id + ":")[..|id|] == id && (id + ":")[|id|] == ':';
    assert "models:"[..6] == "models" && "version: 1"[9] == '1';
  }

  lemma HeaderLineShape(id: string)
    requires PlainId(id)
    ensures var line, s := "  " + (id + ":"), id + ":";
      Strip(line) == s && TrimEnd(line) == line && !IsSkipped(line) && IsHeaderLine(line)
  {
    hide TrimStart, TrimEnd, OneLine, Strip;
    var s, line := id + ":", "  " + (id + ":");
    assert s[0] == id[0] && s[|s| - 1] == ':';
    StripPadded("  ", s);
    assert line[..2] == "  " && line[2] == id[0];
    NotDeeper(line);
    NotModels(id);
    assert s[|s| - 1..] == ":";
  }

  lemma HeaderLineReads(num: Numerals, st: Loader, id: string)
    requires PlainId(id)
    ensures ReadLine(num, st, "  " + (id + ":")) == Loader(Closed(st), Some(BaseId(id)), NO_FIELDS)
  {
    hide TrimStart, TrimEnd, BaseId, Unquoted, OneLine, Closed, Strip, IsSkipped, IsHeaderLine;
    HeaderLineShape(id);
    var s := id + ":";
    assert s[..|s| - 1] == id;
    StripPadded("", id);
    assert "" + id == id;
    UnquotedPlain(id);
  }

  // ---- One model --------------------------------------------------------

  lemma ScalarReads(num: Numerals, p: Price)
    requires SoundNumerals(num)
    ensures var t := Scalar(num, p);
      t != "" && Trimmed(t) && OneLine(t) && ReadValue(num, t) == Reread(num, p)
  {
    if p.Some? && p.value >= 0.0 {
      assert Printable(num, p.value);
    }
  }

  lemma FieldKeys()
    ensures Lower("Input") == "input" && Lower("Cached input") == "cached input" && Lower("Output") == "output"
  {
  }

  /** A model's lines close the model before and read back its own fields. */
  lemma BlockReads(num: Numerals, st: Loader, id: string, f: Fields)
    requires SoundNumerals(num) && PlainId(id)
    ensures ReadLines(num, st, Block(num, id, f)) == Loader(Closed(st), Some(BaseId(id)), RereadFields(num, f))
  {
    hide SoundNumerals, PlainId, BaseId, Closed, FieldLine, ReadValue, Reread, OneLine, Trimmed, Scalar, ReadLine, Lower;
    var b := Block(num, id, f);
    ScalarReads(num, f.input);
    ScalarReads(num, f.cached);
    ScalarReads(num, f.output);
    FieldKeys();
    HeaderLineReads(num, st, id);
    var s1 := ReadLine(num, st, b[0]);
    FieldLineReads(num, s1, "Input", Scalar(num, f.input));
    var s2 := ReadLine(num, s1, b[1]);
    FieldLineReads(num, s2, "Cached input", Scalar(num, f.cached));
    var s3 := ReadLine(num, s2, b[2]);
    FieldLineReads(num, s3, "Output", Scalar(num, f.output));
    FourLines(num, st, b);
  }

  lemma FourLines(num: Numerals, st: Loader, b: seq<string>)
    requires |b| == 4
    ensures ReadLines(num, st, b) ==
            ReadLine(num, ReadLine(num, ReadLine(num, ReadLine(num, st, b[0]), b[1]), b[2]), b[3])
  {
    hide ReadLine;
    assert b[..3][..2] == b[..2] && b[..2][..1] == b[..1] && b[..1][..0] == [];
    assert ReadLines(num, st, b[..1]) == ReadLine(num, st, b[0]);
    assert ReadLines(num, st, b[..2]) == ReadLine(num, ReadLine(num, st, b[0]), b[1]);
  }

  // ---- The whole file ---------------------------------------------------

  ghost predicate PlainModels(models: seq<Model>) {
    forall i :: 0 <= i < |models| ==> PlainId(models[i].id)
  }

  /** The models by base id, with what comes back of their prices; the last of a name wins. */
  function BackAgain(num: Numerals, models: seq<Model>, n: nat): map<string, Fields>
    requires n <= |models|
  {
    if n == 0 then map[]
    else BackAgain(num, models, n - 1)[BaseId(models[n - 1].id) := RereadFields(num, models[n - 1].prices)]
  }

  lemma PlainIsNamed(id: string)
    requires PlainId(id)
    ensures NonBlank(id) && Strip(id) == id
  {
  }

  lemma {:induction false} BlocksRead(num: Numerals, models: seq<Model>, n: nat, st: Loader)
    requires n <= |models| && SoundNumerals(num) && PlainModels(models)
    requires st == EMPTY_LOADER
    ensures Closed(ReadLines(num, st, Blocks(num, models, n))) == BackAgain(num, models, n)
  {
    hide Block, BaseId, RereadFields, PlainId, NonBlank, Strip, SoundNumerals;
    if n > 0 {
      var m := models[n - 1];
      BlocksRead(num, models, n - 1, st);
      PlainIsNamed(m.id);
      var before := ReadLines(num, st, Blocks(num, models, n - 1));
      ReadLinesOnward(num, st, Blocks(num, models, n - 1), Block(num, m.id, m.prices));
      BlockReads(num, before, m.id, m.prices);
    }
  }

  lemma HeaderIsSkipped(num: Numerals, st: Loader)
    ensures ReadLines(num, st, HEADER) == st
    ensures ReadLine(num, st, "") == st
  {
    hide IsHeaderLine, SetField;
    forall i | 0 <= i < |HEADER| ensures ReadLine(num, st, HEADER[i]) == st {
      HeaderLineIsSkipped(i);
    }
    SkippedLines(num, st, HEADER);
  }

  lemma SkippedLine(line: string)
    requires line != "" && !IsSpace(line[0]) && !IsSpace(line[|line| - 1])
    requires line[0] == '#' || line == "version: 1" || line == "models:"
    ensures IsSkipped(line)
  {
    hide TrimStart, TrimEnd, Strip;
    StripPadded("", line);
    assert "" + line == line;
  }

  lemma HeaderLineIsSkipped(i: nat)
    requires i < |HEADER|
    ensures IsSkipped(HEADER[i])
  {
    hide IsSkipped;
    if i == 0 {
      SkippedLine(HEADER[0]);
    } else if i == 1 {
      SkippedLine(HEADER[1]);
    } else if i == 2 {
      SkippedLine(HEADER[2]);
    } else if i == 3 {
      SkippedLine(HEADER[3]);
    } else {
      SkippedLine(HEADER[4]);
    }
  }

  lemma {:induction false} SkippedLines(num: Numerals, st: Loader, lines: seq<string>)
    requires forall i :: 0 <= i < |lines| ==> ReadLine(num, st, lines[i]) == st
    ensures ReadLines(num, st, lines) == st
  {
    hide ReadLine;
    if lines != [] {
      SkippedLines(num, st, lines[..|lines| - 1]);
    }
  }

  lemma SmallTextsAreOneLine()
    ensures OneLine("  ") && OneLine("    ") && OneLine(":") && OneLine(": ")
    ensures OneLine("Input") && OneLine("Cached input") && OneLine("Output")
  {
  }

  lemma OneLineTogether(a: string, b: string)
    requires OneLine(a) && OneLine(b)
    ensures OneLine(a + b)
  {
  }

  lemma FieldLineIsOneLine(name: string, text: string)
    requires OneLine(name) && OneLine(text)
    ensures OneLine(FieldLine(name, text))
  {
    hide OneLine;
    SmallTextsAreOneLine();
    OneLineTogether(name, ": ");
    OneLineTogether(name + ": ", text);
    OneLineTogether("    ", name + ": " + text);
  }

  lemma BlockIsLines(num: Numerals, id: string, f: Fields, i: nat)
    requires SoundNumerals(num) && PlainId(id) && i < 4
    ensures OneLine(Block(num, id, f)[i])
  {
    hide SoundNumerals, Scalar, Trimmed, OneLine, FieldLine, Reread, ReadValue;
    SmallTextsAreOneLine();
    ScalarReads(num, f.input);
    ScalarReads(num, f.cached);
    ScalarReads(num, f.output);
    OneLineTogether(id, ":");
    OneLineTogether("  ", id + ":");
    FieldLineIsOneLine("Input", Scalar(num, f.input));
    FieldLineIsOneLine("Cached input", Scalar(num, f.cached));
    FieldLineIsOneLine("Output", Scalar(num, f.output));
  }

  lemma {:induction false} BlocksAreLines(num: Numerals, models: seq<Model>, n: nat)
    requires n <= |models| && SoundNumerals(num) && PlainModels(models)
    ensures forall i :: 0 <= i < |Blocks(num, models, n)| ==> OneLine(Blocks(num, models, n)[i])
  {
    hide Block, OneLine, PlainId, NonBlank, Strip, SoundNumerals;
    if n > 0 {
      var m := models[n - 1];
      BlocksAreLines(num, models, n - 1);
      PlainIsNamed(m.id);
      assert |Block(num, m.id, m.prices)| == 4 by {
        BlockHasFourLines(num, m.id, m.prices);
      }
      forall i | 0 <= i < 4 { BlockIsLines(num, m.id, m.prices, i); }
    }
  }

  lemma BlockHasFourLines(num: Numerals, id: string, f: Fields)
    ensures |Block(num, id, f)| == 4
  {
  }

  lemma FirstCommentIsOneLine()
    ensures OneLine(HEADER[0])
  {
    OneLineTogether("# Manual OpenAI pricing", " overrides used by the node.");
  }

  lemma CommentStartIsOneLine()
    ensures OneLine("# Edit the values below")
  {
  }

  lemma CommentMiddleIsOneLine()
    ensures OneLine(" as needed. Use null to leave")
  {
  }

  lemma CommentEndIsOneLine()
    ensures OneLine(" a field unset.")
  {
  }

  lemma SecondCommentIsOneLine()
    ensures OneLine(HEADER[1])
  {
    hide OneLine;
    CommentStartIsOneLine();
    CommentMiddleIsOneLine();
    CommentEndIsOneLine();
    OneLineTogether("# Edit the values below", " as needed. Use null to leave");
    OneLineTogether("# Edit the values below" + " as needed. Use null to leave", " a field unset.");
  }

  lemma LastHeaderLinesAreOneLine()
    ensures OneLine(HEADER[2]) && OneLine(HEADER[3]) && OneLine(HEADER[4])
  {
  }

  lemma HeaderIsLines()
    ensures forall i :: 0 <= i < |HEADER| ==> OneLine(HEADER[i])
  {
    hide OneLine;
    FirstCommentIsOneLine();
    SecondCommentIsOneLine();
    LastHeaderLinesAreOneLine();
  }

  /** Loading a saved file gives each model under its base id with the prices
      that six digits can write. */
  lemma LoadedIsSaved(num: Numerals, models: seq<Model>)
    requires SoundNumerals(num) && PlainModels(models)
    ensures Loaded(num, Printed(num, models)) == BackAgain(num, models, |models|)
  {
    hide Blocks, OneLine, ReadLine, PlainModels, SoundNumerals, Join, Split, BackAgain;
    var blocks, n := Blocks(num, models, |models|), |models|;
    HeaderIsLines();
    BlocksAreLines(num, models, n);
    assert OneLine("") by {
      EmptyIsOneLine();
    }
    SplitJoined(FileLines(num, models));
    ReadLinesOnward(num, EMPTY_LOADER, HEADER + blocks, [""]);
    ReadLinesOnward(num, EMPTY_LOADER, HEADER, blocks);
    HeaderIsSkipped(num, EMPTY_LOADER);
    BlocksRead(num, models, n, EMPTY_LOADER);
    var last := ReadLines(num, EMPTY_LOADER, HEADER + blocks);
    HeaderIsSkipped(num, last);
    assert [""][..0] == [];
    assert ReadLines(num, last, [""]) == last;
  }

  lemma EmptyIsOneLine()
    ensures OneLine("")
  {
  }

  /** The models by name, as they were given. */
  function ById(models: seq<Model>, n: nat): map<string, Fields>
    requires n <= |models|
  {
    if n == 0 then map[] else ById(models, n - 1)[models[n - 1].id := models[n - 1].prices]
  }

  /** Plain names that are their own base ids, and exactly written prices, come back as they were. */
  lemma {:induction false} RoundTrip(num: Numerals, models: seq<Model>)
    requires SoundNumerals(num) && PlainModels(models)
    requires forall i :: 0 <= i < |models| ==> BaseId(models[i].id) == models[i].id && ExactFields(num, models[i].prices)
    ensures Loaded(num, Printed(num, models)) == ById(models, |models|)
  {
    hide PlainModels, SoundNumerals, BaseId, Loaded, Printed;
    LoadedIsSaved(num, models);
    BackAgainIsById(num, models, |models|);
  }

  lemma {:induction false} BackAgainIsById(num: Numerals, models: seq<Model>, n: nat)
    requires n <= |models|
    requires forall i :: 0 <= i < |models| ==> BaseId(models[i].id) == models[i].id && ExactFields(num, models[i].prices)
    ensures BackAgain(num, models, n) == ById(models, n)
  {
    hide BaseId;
    if n > 0 {
      BackAgainIsById(num, models, n - 1);
    }
  }

  /** A single plain model comes back under its own name exactly when the name is its own base id. */
  lemma OneModelReturnsIff(num: Numerals, m: Model)
    requires SoundNumerals(num) && PlainId(m.id) && ExactFields(num, m.prices)
    ensures Loaded(num, Printed(num, [m])) == map[m.id := m.prices] <==> BaseId(m.id) == m.id
  {
    hide SoundNumerals, BaseId, Loaded, Printed, PlainId;
    LoadedIsSaved(num, [m]);
    assert BackAgain(num, [m], 0) == map[];
    assert BackAgain(num, [m], 1) == map[BaseId(m.id) := m.prices];
    assert BaseId(m.id) in map[BaseId(m.id) := m.prices];
  }

  // ---- Synchronising twice ----------------------------------------------

  /** Plain names that are their own base ids. */
  ghost predicate KeptIds(ids: set<string>) {
    forall id :: id in ids ==> PlainId(id) && BaseId(id) == id
  }

  lemma {:induction false} BackAgainAt(num: Numerals, models: seq<Model>, n: nat, i: nat)
    requires i < n <= |models|
    requires forall j :: 0 <= j < |models| ==> BaseId(models[j].id) == models[j].id
    requires forall j, k :: 0 <= j < k < |models| ==> models[j].id != models[k].id
    ensures models[i].id in BackAgain(num, models, n)
    ensures BackAgain(num, models, n)[models[i].id] == RereadFields(num, models[i].prices)
  {
    hide BaseId, RereadFields;
    if i < n - 1 {
      BackAgainAt(num, models, n - 1, i);
    }
  }

  lemma {:induction false} BackAgainKeys(num: Numerals, models: seq<Model>, n: nat)
    requires n <= |models|
    requires forall j :: 0 <= j < |models| ==> BaseId(models[j].id) == models[j].id
    ensures forall id :: id in BackAgain(num, models, n) <==> exists i :: 0 <= i < n && models[i].id == id
  {
    hide BaseId, RereadFields;
    if n > 0 {
      BackAgainKeys(num, models, n - 1);
    }
  }

  lemma RereadWritesAlike(num: Numerals, p: Price)
    requires SoundNumerals(num)
    ensures Scalar(num, Reread(num, p)) == Scalar(num, p)
    ensures Reread(num, p).None? ==> Scalar(num, p) == "null"
  {
    if p.Some? && p.value >= 0.0 {
      assert Printable(num, p.value);
    }
  }

  ghost predicate NotNegativeFields(f: Fields) {
    NotNegative(f.input) && NotNegative(f.cached) && NotNegative(f.output)
  }

  /** The reader of price texts refuses negative numbers. */
  ghost predicate ReadsNoNegatives(num: Numerals) {
    forall t: string :: NotNegative(num.read(t))
  }

  ghost predicate LoaderIsNotNegative(st: Loader) {
    NotNegativeFields(st.fields) && forall id :: id in st.prices ==> NotNegativeFields(st.prices[id])
  }

  lemma LineKeepsNotNegative(num: Numerals, st: Loader, line: string)
    requires ReadsNoNegatives(num) && LoaderIsNotNegative(st)
    ensures LoaderIsNotNegative(ReadLine(num, st, line))
  {
    hide Strip, TrimEnd, IsSkipped, IsHeaderLine, BaseId, Unquoted, ColonAt, Lower;
    var stripped := Strip(line);
    var i := ColonAt(stripped);
    assert i < |stripped| ==> NotNegative(num.read(Strip(stripped[i + 1..])));
  }

  lemma {:induction false} LinesKeepNotNegative(num: Numerals, lines: seq<string>)
    requires ReadsNoNegatives(num)
    ensures LoaderIsNotNegative(ReadLines(num, EMPTY_LOADER, lines))
  {
    hide ReadLine;
    if lines != [] {
      LinesKeepNotNegative(num, lines[..|lines| - 1]);
      LineKeepsNotNegative(num, ReadLines(num, EMPTY_LOADER, lines[..|lines| - 1]), lines[|lines| - 1]);
    }
  }

  lemma LoadedAreNotNegative(num: Numerals, text: string, id: string)
    requires ReadsNoNegatives(num)
    ensures NotNegativeFields(FieldsAt(Loaded(num, text), id))
  {
    hide ReadLines, Split;
    LinesKeepNotNegative(num, Split(text));
  }

  lemma RereadStays(num: Numerals, p: Price)
    requires SoundNumerals(num) && NotNegative(p)
    ensures Reread(num, p).Some? <==> p.Some?
  {
    if p.Some? {
      assert Printable(num, p.value);
    }
  }

  /** A model is written the same whether its prices come from elsewhere or
      from the file they were written to. */
  lemma SameBlock(num: Numerals, existing: map<string, Fields>, again: map<string, Fields>, snapshot: Catalog,
                  overrides: map<string, Override>, id: string)
    requires SoundNumerals(num) && NotNegativeFields(FieldsAt(existing, id))
    requires id in again && again[id] == RereadFields(num, ModelFor(existing, snapshot, overrides, id).prices)
    ensures Block(num, id, ModelFor(again, snapshot, overrides, id).prices) ==
            Block(num, id, ModelFor(existing, snapshot, overrides, id).prices)
  {
    hide SoundNumerals, OtherPrices, FieldLine, Scalar, Reread, NotNegative;
    var f, g := ModelFor(existing, snapshot, overrides, id).prices, FieldsAt(existing, id);
    RereadWritesAlike(num, f.input);
    RereadWritesAlike(num, f.cached);
    RereadWritesAlike(num, f.output);
    RereadStays(num, g.input);
    RereadStays(num, g.cached);
    RereadStays(num, g.output);
  }

  lemma {:induction false} SameBlocks(num: Numerals, a: seq<Model>, b: seq<Model>, n: nat)
    requires n <= |a| == |b|
    requires forall i :: 0 <= i < |a| ==> a[i].id == b[i].id && Strip(a[i].id) == a[i].id
    requires forall i :: 0 <= i < |a| ==> Block(num, a[i].id, a[i].prices) == Block(num, b[i].id, b[i].prices)
    ensures Blocks(num, a, n) == Blocks(num, b, n)
  {
    hide Block, NonBlank, Strip;
    if n > 0 {
      SameBlocks(num, a, b, n - 1);
    }
  }

  /** The models of known names, as the file names them. */
  lemma SortedNames(ids: set<string>, models: seq<Model>, existing: map<string, Fields>, snapshot: Catalog, overrides: map<string, Override>)
    requires KeptIds(ids) && models == ModelsFor(Sorted(ids), existing, snapshot, overrides)
    ensures PlainModels(models)
    ensures forall i :: 0 <= i < |models| ==> models[i].id in ids && BaseId(models[i].id) == models[i].id && Strip(models[i].id) == models[i].id
    ensures forall i, j :: 0 <= i < j < |models| ==> models[i].id != models[j].id
    ensures forall id :: id in ids <==> exists i :: 0 <= i < |models| && models[i].id == id
  {
    hide PlainId, BaseId, Strip, ModelFor, Before;
    var names := Sorted(ids);
    forall i | 0 <= i < |models|
      ensures models[i].id == names[i] && names[i] in ids && Strip(names[i]) == names[i]
    {
      assert names[i] in names;
      PlainIsNamed(names[i]);
      ModelIsFor(existing, snapshot, overrides, names[i]);
    }
    forall i, j | 0 <= i < j < |models| ensures models[i].id != models[j].id {
      BeforeIsTotalOrder(names[i], names[j], names[i]);
    }
    forall id | id in ids ensures exists i :: 0 <= i < |models| && models[i].id == id {
      var i :| 0 <= i < |names| && names[i] == id;
      assert models[i].id == id;
    }
  }

  /** Loading a synchronised file gives the known names again, each with what can be read of its prices. */
  lemma LoadedAgain(num: Numerals, ids: set<string>, models: seq<Model>, existing: map<string, Fields>, snapshot: Catalog,
                    overrides: map<string, Override>, id: string)
    requires SoundNumerals(num) && KeptIds(ids) && models == ModelsFor(Sorted(ids), existing, snapshot, overrides)
    ensures id in Loaded(num, Printed(num, models)) <==> id in ids
    ensures id in ids ==> Loaded(num, Printed(num, models))[id] == RereadFields(num, ModelFor(existing, snapshot, overrides, id).prices)
  {
    hide SoundNumerals, KeptIds, BaseId, Strip, Loaded, Printed, RereadFields, ModelFor, PlainModels;
    SortedNames(ids, models, existing, snapshot, overrides);
    LoadedIsSaved(num, models);
    BackAgainKeys(num, models, |models|);
    if id in ids {
      var i :| 0 <= i < |models| && models[i].id == id;
      BackAgainAt(num, models, |models|, i);
      ModelIsFor(existing, snapshot, overrides, Sorted(ids)[i]);
    }
  }

  lemma ModelIsFor(existing: map<string, Fields>, snapshot: Catalog, overrides: map<string, Override>, id: string)
    ensures ModelFor(existing, snapshot, overrides, id).id == id
  {
  }

  lemma SamePrint(num: Numerals, a: seq<Model>, b: seq<Model>)
    requires Blocks(num, a, |a|) == Blocks(num, b, |b|)
    ensures Printed(num, a) == Printed(num, b)
  {
    hide Blocks;
  }

  lemma SameModel(num: Numerals, text: string, known: set<string>, models: seq<Model>, models2: seq<Model>,
                  existing: map<string, Fields>, again: map<string, Fields>, snapshot: Catalog, overrides: map<string, Override>, i: nat)
    requires SoundNumerals(num) && ReadsNoNegatives(num) && KeptIds(known)
    requires existing == Loaded(num, text)
    requires models == ModelsFor(Sorted(known), existing, snapshot, overrides)
    requires again == Loaded(num, Printed(num, models)) && models2 == ModelsFor(Sorted(known), again, snapshot, overrides)
    requires i < |models|
    ensures models[i].id == models2[i].id
    ensures Block(num, models[i].id, models[i].prices) == Block(num, models2[i].id, models2[i].prices)
  {
    hide SoundNumerals, ReadsNoNegatives, KeptIds, Loaded, Printed, ModelFor, Block;
    var id := Sorted(known)[i];
    assert id in Sorted(known);
    ModelIsFor(existing, snapshot, overrides, id);
    ModelIsFor(again, snapshot, overrides, id);
    LoadedAgain(num, known, models, existing, snapshot, overrides, id);
    LoadedAreNotNegative(num, text, id);
    SameBlock(num, existing, again, snapshot, overrides, id);
  }

  lemma SamePrintAgain(num: Numerals, text: string, known: set<string>, models: seq<Model>, models2: seq<Model>,
                       existing: map<string, Fields>, again: map<string, Fields>, snapshot: Catalog, overrides: map<string, Override>)
    requires SoundNumerals(num) && ReadsNoNegatives(num) && KeptIds(known)
    requires existing == Loaded(num, text)
    requires models == ModelsFor(Sorted(known), existing, snapshot, overrides)
    requires again == Loaded(num, Printed(num, models)) && models2 == ModelsFor(Sorted(known), again, snapshot, overrides)
    ensures Printed(num, models2) == Printed(num, models)
  {
    hide SoundNumerals, ReadsNoNegatives, KeptIds, Loaded, Printed, ModelFor, Block, Blocks;
    SortedNames(known, models, existing, snapshot, overrides);
    forall i | 0 <= i < |models|
      ensures models[i].id == models2[i].id && Block(num, models[i].id, models[i].prices) == Block(num, models2[i].id, models2[i].prices)
    {
      SameModel(num, text, known, models, models2, existing, again, snapshot, overrides, i);
    }
    SameBlocks(num, models, models2, |models|);
    SamePrint(num, models, models2);
  }

  /** Synchronising twice writes the same file as synchronising once. */
  lemma SyncSettles(num: Numerals, text: string, others: set<string>, snapshot: Catalog, overrides: map<string, Override>)
    requires SoundNumerals(num) && ReadsNoNegatives(num)
    requires KeptIds(others + Loaded(num, text).Keys)
    ensures var once := Synced(num, text, others, snapshot, overrides);
      Synced(num, once, others, snapshot, overrides) == once
  {
    hide SoundNumerals, ReadsNoNegatives, KeptIds, Loaded, Printed, ModelsFor;
    var existing := Loaded(num, text);
    var known := others + existing.Keys;
    var ids := Sorted(known);
    if ids != [] {
      var models := ModelsFor(ids, existing, snapshot, overrides);
      var again := Loaded(num, Printed(num, models));
      forall id ensures id in again <==> id in known {
        LoadedAgain(num, known, models, existing, snapshot, overrides, id);
      }
      assert others + again.Keys == known;
      SamePrintAgain(num, text, known, models, ModelsFor(ids, again, snapshot, overrides), existing, again, snapshot, overrides);
    }
  }
}

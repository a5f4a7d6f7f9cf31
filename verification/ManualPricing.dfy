/** The manual price file: a hand-written printer and parser of a small YAML
    layout, and the synchronisation that rewrites the file. */
module ManualPricing {
  import opened Text
  import opened PricingRules
  import opened PricingRefresh

  /** How prices are written and read: `format(value, "g")`, and the reader of
      price texts, which refuses negative numbers. */
  datatype Numerals = Numerals(show: real -> string, read: string -> Price)

  datatype Fields = Fields(input: Price, cached: Price, output: Price)

  const NO_FIELDS := Fields(None, None, None)

  datatype Model = Model(id: string, prices: Fields)

  // ---- Lines ------------------------------------------------------------

  /** The characters at which `splitlines` breaks a text. */
  predicate IsBreak(c: char) {
    var n := c as int;
    10 <= n <= 13 || 28 <= n <= 30 || n == 0x85 || n == 0x2028 || n == 0x2029
  }

  predicate OneLine(s: string) {
    forall i :: 0 <= i < |s| ==> !IsBreak(s[i])
  }

  /** The lines of a text; where `splitlines` has none, a blank one may come up. */
  function Split(s: string): (r: seq<string>)
    ensures r != []
  {
    if s == "" then [""]
    else
      var r := Split(s[1..]);
      if IsBreak(s[0]) then [""] + r else [[s[0]] + r[0]] + r[1..]
  }

  function Join(lines: seq<string>): string
    requires lines != []
  {
    if |lines| == 1 then lines[0] else lines[0] + "\n" + Join(lines[1..])
  }

  // ---- Printing ---------------------------------------------------------

  function Scalar(num: Numerals, p: Price): string {
    if p.None? || p.value < 0.0 then "null" else num.show(p.value)
  }

  const HEADER := [
    "# Manual OpenAI pricing" + " overrides used by the node.",
    "# Edit the values below" + " as needed. Use null to leave" + " a field unset.",
    "# Units are USD per 1M tokens.",
    "version: 1",
    "models:"]

  function FieldLine(name: string, text: string): string {
    "    " + (name + ": " + text)
  }

  function Block(num: Numerals, id: string, f: Fields): seq<string> {
    ["  " + (id + ":"), FieldLine("Input", Scalar(num, f.input)), FieldLine("Cached input", Scalar(num, f.cached)),
     FieldLine("Output", Scalar(num, f.output))]
  }

  /** The lines of the first `n` models; one without a name is skipped. */
  function Blocks(num: Numerals, models: seq<Model>, n: nat): seq<string>
    requires n <= |models|
  {
    if n == 0 then []
    else
      var before, m := Blocks(num, models, n - 1), models[n - 1];
      if NonBlank(m.id) then before + Block(num, Strip(m.id), m.prices) else before
  }

  function FileLines(num: Numerals, models: seq<Model>): seq<string> {
    HEADER + Blocks(num, models, |models|) + [""]
  }

  function Printed(num: Numerals, models: seq<Model>): string {
    Join(FileLines(num, models))
  }

  /** `_save_manual_pricing_yaml`. */
  method SaveManualPricing(num: Numerals, models: seq<Model>) returns (text: string)
    ensures text == Printed(num, models)
  {
    hide NonBlank, Strip, Block;
    var lines := HEADER;
    for n := 0 to |models|
      invariant lines == HEADER + Blocks(num, models, n)
    {
      if NonBlank(models[n].id) {
        lines := lines + Block(num, Strip(models[n].id), models[n].prices);
      }
    }
    lines := lines + [""];
    text := Join(lines);
  }

  // ---- Parsing ----------------------------------------------------------

  predicate IsQuote(c: char) {
    c == '\'' || c == '"'
  }

  /** `strip("'\"")`. */
  function Unquoted(s: string): string {
    if s != "" && IsQuote(s[0]) then Unquoted(s[1..])
    else if s != "" && IsQuote(s[|s| - 1]) then Unquoted(s[..|s| - 1])
    else s
  }

  function ColonAt(s: string): (i: nat)
    ensures i <= |s| && (i < |s| ==> s[i] == ':')
    ensures forall j :: 0 <= j < i ==> s[j] != ':'
  {
    if s == "" || s[0] == ':' then 0 else 1 + ColonAt(s[1..])
  }

  /** The models read so far, and the one whose fields are being read. */
  datatype Loader = Loader(prices: map<string, Fields>, current: Option<string>, fields: Fields)

  const EMPTY_LOADER := Loader(map[], None, NO_FIELDS)

  function Closed(st: Loader): map<string, Fields> {
    if st.current.Some? then st.prices[st.current.value := st.fields] else st.prices
  }

  function SetField(st: Loader, key: string, value: Price): Loader {
    if key == "input" then st.(fields := st.fields.(input := value))
    else if key == "cached input" then st.(fields := st.fields.(cached := value))
    else if key == "output" then st.(fields := st.fields.(output := value))
    else st
  }

  function ReadValue(num: Numerals, text: string): Price {
    if text in ["", "null", "~"] then None else num.read(text)
  }

  predicate IsHeaderLine(line: string) {
    && StartsWith(TrimEnd(line), "  ") && !StartsWith(TrimEnd(line), "    ")
    && EndsWith(Strip(line), ":")
  }

  predicate IsSkipped(line: string) {
    var stripped := Strip(line);
    stripped == "" || stripped[0] == '#' || stripped == "version: 1" || stripped == "models:"
  }

  /** One line of the file. */
  function ReadLine(num: Numerals, st: Loader, line: string): Loader {
    var stripped := Strip(line);
    if IsSkipped(line) then st
    else if IsHeaderLine(line) then
      Loader(Closed(st), Some(BaseId(Unquoted(Strip(stripped[..|stripped| - 1])))), NO_FIELDS)
    else if st.current.None? || !StartsWith(TrimEnd(line), "    ") || ':' !in stripped then st
    else
      var i := ColonAt(stripped);
      SetField(st, Lower(Strip(stripped[..i])), ReadValue(num, Strip(stripped[i + 1..])))
  }

  function ReadLines(num: Numerals, st: Loader, lines: seq<string>): Loader {
    if lines == [] then st else ReadLine(num, ReadLines(num, st, lines[..|lines| - 1]), lines[|lines| - 1])
  }

  function Loaded(num: Numerals, text: string): map<string, Fields> {
    Closed(ReadLines(num, EMPTY_LOADER, Split(text)))
  }

  /** `_load_manual_pricing_yaml`. */
  method LoadManualPricing(num: Numerals, text: string) returns (r: map<string, Fields>)
    ensures r == Loaded(num, text)
  {
    hide Strip, IsHeaderLine, IsSkipped, BaseId, Unquoted, ColonAt, TrimEnd, ReadLine, Split;
    var lines, st := Split(text), EMPTY_LOADER;
    for n := 0 to |lines|
      invariant st == ReadLines(num, EMPTY_LOADER, lines[..n])
    {
      assert lines[..n + 1][..n] == lines[..n];
      st := LoadLine(num, st, lines[n]);
    }
    assert lines[..|lines|] == lines;
    r := Closed(st);
  }

  method LoadLine(num: Numerals, st: Loader, line: string) returns (r: Loader)
    ensures r == ReadLine(num, st, line)
  {
    hide Strip, IsHeaderLine, BaseId, Unquoted, TrimEnd;
    var stripped := Strip(line);
    r := st;
    if stripped == "" || stripped[0] == '#' {
      return;
    }
    if stripped == "version: 1" || stripped == "models:" {
      return;
    }
    if IsHeaderLine(line) {
      r := r.(prices := Closed(r));
      r := r.(current := Some(BaseId(Unquoted(Strip(stripped[..|stripped| - 1])))));
      r := r.(fields := NO_FIELDS);
      return;
    }
    if r.current.None? || !StartsWith(TrimEnd(line), "    ") || ':' !in stripped {
      return;
    }
    var i := ColonAt(stripped);
    r := SetField(r, Lower(Strip(stripped[..i])), ReadValue(num, Strip(stripped[i + 1..])));
  }

  // ---- Synchronising ----------------------------------------------------

  predicate HasPrices(f: Fields) {
    f.input.Some? || f.cached.Some? || f.output.Some?
  }

  function FieldsAt(prices: map<string, Fields>, id: string): Fields {
    if id in prices then prices[id] else NO_FIELDS
  }

  /** The prices of a model the file has none for: those of the snapshot, else
      of the overrides, wherever they are per token. */
  function OtherPrices(snapshot: Catalog, overrides: map<string, Override>, id: string): Fields {
    if id in snapshot && snapshot[id].terms.basis == PerTokens then
      Fields(snapshot[id].terms.input, snapshot[id].terms.cached, snapshot[id].terms.output)
    else if id in overrides && ParseBasis(overrides[id].basis) == PerTokens then
      Fields(NormalizePrice(overrides[id].input), NormalizePrice(overrides[id].cached), NormalizePrice(overrides[id].output))
    else NO_FIELDS
  }

  function ModelFor(existing: map<string, Fields>, snapshot: Catalog, overrides: map<string, Override>, id: string): Model {
    Model(id, if HasPrices(FieldsAt(existing, id)) then FieldsAt(existing, id) else OtherPrices(snapshot, overrides, id))
  }

  function ModelsFor(ids: seq<string>, existing: map<string, Fields>, snapshot: Catalog, overrides: map<string, Override>): (r: seq<Model>)
    ensures |r| == |ids| && forall i :: 0 <= i < |ids| ==> r[i] == ModelFor(existing, snapshot, overrides, ids[i])
  {
    seq(|ids|, i requires 0 <= i < |ids| => ModelFor(existing, snapshot, overrides, ids[i]))
  }

  /** The names known from elsewhere and from the file itself, in order. */
  ghost function KnownIds(existing: map<string, Fields>, others: set<string>): seq<string> {
    Sorted(others + existing.Keys)
  }

  /** `_ensure_manual_pricing_config`: the file, rewritten for every known model. */
  ghost function Synced(num: Numerals, text: string, others: set<string>, snapshot: Catalog, overrides: map<string, Override>): string {
    var existing := Loaded(num, text);
    var ids := KnownIds(existing, others);
    if ids == [] then text else Printed(num, ModelsFor(ids, existing, snapshot, overrides))
  }

  method BuildManualPricingModels(ids: seq<string>, existing: map<string, Fields>, snapshot: Catalog, overrides: map<string, Override>)
    returns (models: seq<Model>)
    ensures models == ModelsFor(ids, existing, snapshot, overrides)
  {
    hide ParseBasis, NormalizePrice;
    models := [];
    for i := 0 to |ids|
      invariant models == ModelsFor(ids, existing, snapshot, overrides)[..i]
    {
      var prices := OtherPrices(snapshot, overrides, ids[i]);
      if HasPrices(FieldsAt(existing, ids[i])) {
        prices := FieldsAt(existing, ids[i]);
      }
      models := models + [Model(ids[i], prices)];
    }
  }

  method SyncManualPricing(num: Numerals, text: string, others: set<string>, snapshot: Catalog, overrides: map<string, Override>)
    returns (r: string)
    ensures r == Synced(num, text, others, snapshot, overrides)
  {
    hide ModelsFor, Printed, Loaded;
    var existing := LoadManualPricing(num, text);
    var ids := SortSet(others + existing.Keys);
    if ids == [] {
      return text;
    }
    var models := BuildManualPricingModels(ids, existing, snapshot, overrides);
    r := SaveManualPricing(num, models);
  }
}

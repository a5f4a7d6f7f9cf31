/** Prompt registrations: their normalisation, creation and every edit of one
    entry, including the edits an operation leaves behind when it raises. */
module PromptEntries {
  import opened Text

  // ---- Version names ----------------------------------------------------

  function Digit(d: nat): char
    requires d < 10
  {
    ('0' as int + d) as char
  }

  function PrintNat(n: nat): string {
    if n < 10 then [Digit(n)] else PrintNat(n / 10) + [Digit(n % 10)]
  }

  /** The first digit of each other run of ten decimal digits. */
  const ZEROS := [
    0x660, 0x6F0, 0x7C0, 0x966, 0x9E6, 0xA66, 0xAE6, 0xB66, 0xBE6, 0xC66, 0xCE6, 0xD66, 0xDE6, 0xE50, 0xED0, 0xF20,
    0x1040, 0x1090, 0x17E0, 0x1810, 0x1946, 0x19D0, 0x1A80, 0x1A90, 0x1B50, 0x1BB0, 0x1C40, 0x1C50, 0xA620, 0xA8D0,
    0xA900, 0xA9D0, 0xA9F0, 0xAA50, 0xABF0, 0xFF10, 0x104A0, 0x10D30, 0x11066, 0x110F0, 0x11136, 0x111D0, 0x112F0,
    0x11450, 0x114D0, 0x11650, 0x116C0, 0x11730, 0x118E0, 0x11950, 0x11C50, 0x11D50, 0x11DA0, 0x16A60, 0x16AC0,
    0x16B50, 0x1D7CE, 0x1D7D8, 0x1D7E2, 0x1D7EC, 0x1D7F6, 0x1E140, 0x1E2F0, 0x1E950, 0x1FBF0]

  /** The characters `isdigit` accepts and `int` does not: superscripts,
      subscripts, digits in circles and the like. */
  const MARKS := [
    (0xB2, 0xB3), (0xB9, 0xB9), (0x1369, 0x1371), (0x19DA, 0x19DA), (0x2070, 0x2070), (0x2074, 0x2079), (0x2080, 0x2089),
    (0x2460, 0x2468), (0x2474, 0x247C), (0x2488, 0x2490), (0x24EA, 0x24EA), (0x24F5, 0x24FD), (0x24FF, 0x24FF),
    (0x2776, 0x277E), (0x2780, 0x2788), (0x278A, 0x2792), (0x10A40, 0x10A43), (0x10E60, 0x10E68), (0x11052, 0x1105A),
    (0x1F100, 0x1F10A)]

  function ValueFrom(n: int, i: nat): (d: Option<nat>)
    requires i <= |ZEROS|
    ensures d.Some? ==> d.value < 10
    decreases |ZEROS| - i
  {
    if i == |ZEROS| then None
    else if ZEROS[i] <= n < ZEROS[i] + 10 then Some(n - ZEROS[i])
    else ValueFrom(n, i + 1)
  }

  /** The value of a decimal digit of any script. */
  function DigitValue(c: char): (d: Option<nat>)
    ensures d.Some? ==> d.value < 10
  {
    if '0' <= c <= '9' then Some(c as int - '0' as int)
    else if c as int < 0x660 then None
    else ValueFrom(c as int, 0)
  }

  predicate IsMark(c: char) {
    exists i :: 0 <= i < |MARKS| && MARKS[i].0 <= c as int <= MARKS[i].1
  }

  predicate AllDigits(s: string) {
    s != "" && forall i :: 0 <= i < |s| ==> DigitValue(s[i]).Some?
  }

  function ParseNat(s: string): nat
    requires AllDigits(s)
  {
    var last := DigitValue(s[|s| - 1]).value;
    if |s| == 1 then last else ParseNat(s[..|s| - 1]) * 10 + last
  }

  lemma {:induction false} PrintedNatParses(n: nat)
    ensures AllDigits(PrintNat(n)) && ParseNat(PrintNat(n)) == n
    ensures forall i :: 0 <= i < |PrintNat(n)| ==> '0' <= PrintNat(n)[i] <= '9'
  {
    if n >= 10 {
      PrintedNatParses(n / 10);
      assert PrintNat(n)[..|PrintNat(n)| - 1] == PrintNat(n / 10);
    }
  }

  datatype Definition = Definition(
    systemPrompt: Option<string>, template: Option<string>, variables: seq<string>, defaults: map<string, string>)

  datatype Version = Version(name: string, definition: Definition, metadata: map<string, string>)

  /** The number of a version named "v" and digits, in either case. */
  function VersionNumber(name: string): Option<nat> {
    var v := Lower(Strip(name));
    if v != "" && v[0] == 'v' && AllDigits(v[1..]) then Some(ParseNat(v[1..])) else None
  }

  function MaxVersion(vs: seq<Version>): nat {
    if vs == [] then 0
    else
      var before := MaxVersion(vs[..|vs| - 1]);
      var number := VersionNumber(vs[|vs| - 1].name);
      if number.Some? && number.value > before then number.value else before
  }

  /** The most digits a number may have when it is read from or written to a text. */
  const MAX_DIGITS := 4300

  /** A name of "v" and digits whose number cannot be read: some digit is no
      decimal digit, or there are too many of them. */
  predicate Unreadable(name: string) {
    var v := Lower(Strip(name));
    && v != "" && v[0] == 'v' && v != "v"
    && (forall i :: 1 <= i < |v| ==> DigitValue(v[i]).Some? || IsMark(v[i]))
    && (!AllDigits(v[1..]) || |v| - 1 > MAX_DIGITS)
  }

  /** No number follows those of the stored versions: one of them cannot be
      read, or the next one cannot be written. */
  predicate Unnumbered(vs: seq<Version>) {
    (exists v <- vs :: Unreadable(v.name)) || |PrintNat(MaxVersion(vs) + 1)| > MAX_DIGITS
  }

  /** `next_prompt_version`; None when it raises. */
  function NextVersion(vs: seq<Version>): Option<string> {
    if Unnumbered(vs) then None else Some("v" + PrintNat(MaxVersion(vs) + 1))
  }

  lemma {:induction false} MaxVersionIsMax(vs: seq<Version>, i: nat)
    requires i < |vs|
    ensures VersionNumber(vs[i].name).Some? ==> VersionNumber(vs[i].name).value <= MaxVersion(vs)
  {
    hide VersionNumber;
    if i < |vs| - 1 {
      MaxVersionIsMax(vs[..|vs| - 1], i);
    }
  }

  lemma NumberedNames(n: nat)
    ensures VersionNumber("v" + PrintNat(n)) == Some(n)
    ensures Trimmed("v" + PrintNat(n))
  {
    PrintedNatParses(n);
    var name := "v" + PrintNat(n);
    hide PrintNat, AllDigits, ParseNat, DigitValue;
    assert name[1..] == PrintNat(n);
    assert !IsSpace('v');
    assert Trimmed(name);
    assert forall i :: 0 <= i < |name| ==> !('A' <= name[i] <= 'Z');
    assert Lower(name) == name;
  }

  /** A next version name is that of no stored version. There is none exactly
      when a stored name has a number that cannot be read, or the next number
      cannot be written. */
  lemma NextVersionIsFresh(vs: seq<Version>)
    ensures NextVersion(vs).None? <==> Unnumbered(vs)
    ensures NextVersion(vs).Some? ==> forall i :: 0 <= i < |vs| ==> Strip(vs[i].name) != NextVersion(vs).value
  {
    hide VersionNumber, Unnumbered, Strip;
    NumberedNames(MaxVersion(vs) + 1);
    forall i | 0 <= i < |vs| ensures NextVersion(vs).Some? ==> Strip(vs[i].name) != NextVersion(vs).value {
      MaxVersionIsMax(vs, i);
      SameNumber(vs[i].name, "v" + PrintNat(MaxVersion(vs) + 1));
    }
  }

  /** A stored version named v with a superscript two makes it raise. */
  lemma SuperscriptsAreUnreadable(v: Version)
    requires v.name == ['v', 0xB2 as char]
    ensures NextVersion([v]) == None
  {
    var c := v.name[1];
    assert MARKS[0].0 <= c as int <= MARKS[0].1 && IsMark(c);
    assert !IsSpace('v') && !IsSpace(c) && Trimmed(v.name);
    assert v.name == ['v', c] && LowerChar('v') == 'v' && LowerChar(c) == c;
    assert Lower(v.name) == v.name;
    hide TrimStart, TrimEnd;
    assert Strip(v.name) == v.name;
    assert c as int == 0xB2 && DigitValue(c).None?;
    var rest := v.name[1..];
    assert |rest| == 1 && rest[0] == c && !AllDigits(rest);
    assert Unreadable(v.name) && v in [v];
  }

  lemma SameNumber(a: string, b: string)
    requires Trimmed(b)
    ensures Strip(a) == b ==> VersionNumber(a) == VersionNumber(b)
  {
  }

  // ---- Entries ----------------------------------------------------------

  datatype State = Draft | Probation | Active | ReviewDue | Restricted | Suspended | Retired | Expired

  datatype Privacy = PublicPrompt | Internal | RestrictedPrompt | Sensitive

  datatype Scope = Private | Service | Shared | Public

  datatype ExecutionPolicy = ExecutionPolicy(direct: bool, pinning: bool)

  datatype Preferences = Preferences(
    providers: seq<string>, models: seq<string>, defaultProvider: Option<string>, defaultModel: Option<string>)

  datatype Constraints = Constraints(maxTimeout: Option<int>, structured: bool, overrides: seq<string>)

  datatype Change = Change(state: State, reason: string)

  datatype Usage = Usage(
    executions: int, successes: int, failures: int, denials: int, lastUsedAt: Option<string>,
    lastDenial: Option<string>, lastDeniedAt: Option<string>, lastFailure: Option<string>, lastFailureAt: Option<string>,
    lastStatus: Option<string>)

  datatype Entry = Entry(
    promptId: string, promptName: string, serviceId: string, ownerService: string, ownerClient: Option<string>,
    taskFamily: string, status: State, privacy: Privacy, scope: Scope,
    services: seq<string>, clients: seq<string>, customers: seq<string>,
    policy: ExecutionPolicy, preferences: Preferences, constraints: Constraints, metadata: map<string, string>,
    currentVersion: string, versions: seq<Version>, history: seq<Change>, usage: Usage,
    reviewedBy: Option<string>, reviewReason: Option<string>)

  function ParseState(text: string): Option<State> {
    var s := Lower(Strip(text));
    if s == "registered" || s == "active" then Some(Active)
    else if s == "probation" then Some(Probation)
    else if s == "draft" then Some(Draft)
    else if s == "review_due" then Some(ReviewDue)
    else if s == "restricted" then Some(Restricted)
    else if s == "suspended" then Some(Suspended)
    else if s == "retired" then Some(Retired)
    else if s == "expired" then Some(Expired)
    else None
  }

  function ParsePrivacy(text: string): Option<Privacy> {
    var s := Lower(Strip(if text == "" then "internal" else text));
    if s == "internal" then Some(Internal)
    else if s == "public" then Some(PublicPrompt)
    else if s == "restricted" then Some(RestrictedPrompt)
    else if s == "sensitive" then Some(Sensitive)
    else None
  }

  function ParseScope(text: string): Option<Scope> {
    var s := Lower(Strip(if text == "" then "service" else text));
    if s == "service" then Some(Service)
    else if s == "private" then Some(Private)
    else if s == "shared" then Some(Shared)
    else if s == "public" then Some(Public)
    else None
  }

  /** `_optional_string`. */
  function OptionalText(text: string): Option<string> {
    var t := Strip(text);
    if t == "" then None else Some(t)
  }

  function Retrim(o: Option<string>): Option<string> {
    if o.None? then None else OptionalText(o.value)
  }

  function LowerOptional(o: Option<string>): Option<string> {
    var t := Retrim(o);
    if t.None? then None else Some(Lower(t.value))
  }

  function OrElse(text: string, default: string): string {
    var t := Strip(text);
    if t == "" then default else t
  }

  function NormalizePreferences(p: Preferences): Preferences {
    Preferences(LowerList(p.providers), LowerList(p.models), LowerOptional(p.defaultProvider), LowerOptional(p.defaultModel))
  }

  function NormalizeConstraints(c: Constraints): Constraints {
    Constraints(
      if c.maxTimeout.None? then None else Some(if c.maxTimeout.value < 1 then 1 else c.maxTimeout.value),
      c.structured,
      CleanList(c.overrides))
  }

  function NormalizeDefinition(d: Definition): Definition {
    Definition(Retrim(d.systemPrompt), Retrim(d.template), CleanList(d.variables), d.defaults)
  }

  function AtLeastZero(n: int): int {
    if n < 0 then 0 else n
  }

  function NormalizeUsage(u: Usage): Usage {
    u.(executions := AtLeastZero(u.executions), successes := AtLeastZero(u.successes), failures := AtLeastZero(u.failures),
       denials := AtLeastZero(u.denials))
  }

  const UNUSED := Usage(0, 0, 0, 0, None, None, None, None, None, None)

  const EMPTY_DEFINITION := Definition(None, None, [], map[])

  /** The stored versions, names trimmed, blank ones dropped; one made up if there is none. */
  function NormalizeVersions(e: Entry): seq<Version> {
    if e.versions == [] then [Version(OrElse(e.currentVersion, "v1"), EMPTY_DEFINITION, e.metadata)]
    else NamedVersions(e.versions)
  }

  function NamedVersions(vs: seq<Version>): seq<Version> {
    if vs == [] then []
    else
      var before := NamedVersions(vs[..|vs| - 1]);
      var v := vs[|vs| - 1];
      if Strip(v.name) == "" then before else before + [v.(name := Strip(v.name))]
  }

  /** `_normalize_entry`; None when it raises. */
  function NormalizeEntry(e: Entry): Option<Entry> {
    var id, service, task := Strip(e.promptId), Strip(e.serviceId), Strip(e.taskFamily);
    var versions := NormalizeVersions(e);
    var current := Strip(e.currentVersion);
    if id == "" || service == "" || task == "" then None
    else if current == "" && versions == [] then None
    else Some(Entry(
      id, OrElse(e.promptName, id), service, OrElse(e.ownerService, service), Retrim(e.ownerClient),
      task, e.status, e.privacy, e.scope,
      CleanList(e.services), CleanList(e.clients), CleanList(e.customers),
      e.policy, NormalizePreferences(e.preferences), NormalizeConstraints(e.constraints), e.metadata,
      if current == "" then versions[|versions| - 1].name else current,
      versions,
      if e.history == [] then [Change(e.status, "migrated")] else e.history,
      NormalizeUsage(e.usage),
      Retrim(e.reviewedBy), Retrim(e.reviewReason)))
  }

  // ---- Creating and editing ---------------------------------------------

  /** The supported task families, and the older names still accepted for them. */
  datatype Families = Families(canonical: set<string>, aliases: map<string, string>)

  function Canonicalize(f: Families, text: string): Option<string> {
    var t := Lower(Strip(text));
    var family := if t in f.aliases then f.aliases[t] else t;
    if t == "" || family !in f.canonical then None else Some(family)
  }

  datatype CreateArgs = CreateArgs(
    promptId: string, serviceId: string, taskFamily: string, metadata: map<string, string>, promptName: string,
    ownerService: string, ownerClient: string, privacy: string, scope: string,
    services: seq<string>, clients: seq<string>, customers: seq<string>,
    policy: ExecutionPolicy, preferences: Preferences, constraints: Constraints, definition: Definition,
    version: string, status: string)

  function NewEntry(a: CreateArgs, task: string, state: State, privacy: Privacy, scope: Scope): Entry {
    var id, service, version := Strip(a.promptId), Strip(a.serviceId), OrElse(a.version, "v1");
    Entry(
      id, OrElse(a.promptName, id), service, OrElse(a.ownerService, service), OptionalText(a.ownerClient),
      task, state, privacy, scope,
      CleanList(a.services), CleanList(a.clients), CleanList(a.customers),
      a.policy, NormalizePreferences(a.preferences), NormalizeConstraints(a.constraints), a.metadata,
      version, [Version(version, NormalizeDefinition(a.definition), a.metadata)],
      [Change(state, "created")], UNUSED,
      OptionalText(a.ownerClient), if state == Active then Some("created") else None)
  }

  /** `create_prompt_service_registration`; None when it raises. */
  function CreateEntry(a: CreateArgs, f: Families): Option<Entry> {
    var task, state := Canonicalize(f, a.taskFamily), ParseState(a.status);
    var privacy, scope := ParsePrivacy(a.privacy), ParseScope(a.scope);
    if Strip(a.promptId) == "" || Strip(a.serviceId) == "" || task.None? || state.None? || privacy.None? || scope.None? then None
    else Some(NewEntry(a, task.value, state.value, privacy.value, scope.value))
  }

  datatype UpdateArgs = UpdateArgs(
    promptName: Option<string>, ownerService: Option<string>, ownerClient: Option<string>, taskFamily: Option<string>,
    privacy: Option<string>, scope: Option<string>,
    services: Option<seq<string>>, clients: Option<seq<string>>, customers: Option<seq<string>>,
    policy: Option<ExecutionPolicy>, preferences: Option<Preferences>, constraints: Option<Constraints>,
    metadata: Option<map<string, string>>, definition: Option<Definition>, version: Option<string>)

  /** The entry an edit leaves, and whether the edit returned rather than raised. */
  datatype Edit = Edit(entry: Entry, ok: bool)

  function UpdateTask(e: Entry, a: UpdateArgs, f: Families): Edit {
    if a.taskFamily.None? then Edit(e, true)
    else
      var task := Canonicalize(f, a.taskFamily.value);
      if task.None? then Edit(e, false) else Edit(e.(taskFamily := task.value), true)
  }

  function UpdateName(e: Entry, a: UpdateArgs): Edit {
    if a.promptName.None? then Edit(e, true)
    else if Strip(a.promptName.value) == "" then Edit(e, false)
    else Edit(e.(promptName := Strip(a.promptName.value)), true)
  }

  function UpdateOwner(e: Entry, a: UpdateArgs): Edit {
    if a.ownerService.Some? && Strip(a.ownerService.value) == "" then Edit(e, false)
    else
      var owned := if a.ownerService.Some? then e.(ownerService := Strip(a.ownerService.value)) else e;
      Edit(if a.ownerClient.Some? then owned.(ownerClient := OptionalText(a.ownerClient.value)) else owned, true)
  }

  function UpdatePrivacy(e: Entry, a: UpdateArgs): Edit {
    if a.privacy.None? then Edit(e, true)
    else
      var privacy := ParsePrivacy(a.privacy.value);
      if privacy.None? then Edit(e, false) else Edit(e.(privacy := privacy.value), true)
  }

  function Given<T>(o: Option<T>, default: T): T {
    if o.Some? then o.value else default
  }

  function UpdateAccess(e: Entry, a: UpdateArgs): Edit {
    if a.scope.None? && a.services.None? && a.clients.None? && a.customers.None? then Edit(e, true)
    else
      var scope := if a.scope.None? then Some(e.scope) else ParseScope(a.scope.value);
      if scope.None? then Edit(e, false)
      else Edit(e.(
        scope := scope.value,
        services := CleanList(Given(a.services, e.services)),
        clients := CleanList(Given(a.clients, e.clients)),
        customers := CleanList(Given(a.customers, e.customers))), true)
  }

  function UpdateSettings(e: Entry, a: UpdateArgs): Entry {
    e.(policy := Given(a.policy, e.policy),
       preferences := if a.preferences.Some? then NormalizePreferences(a.preferences.value) else e.preferences,
       constraints := if a.constraints.Some? then NormalizeConstraints(a.constraints.value) else e.constraints,
       metadata := Given(a.metadata, e.metadata))
  }

  predicate HasVersion(vs: seq<Version>, name: string) {
    exists v <- vs :: Strip(v.name) == name
  }

  /** The name asked for, else the next one; None when there is none. */
  function VersionName(vs: seq<Version>, asked: Option<string>): Option<string> {
    if asked.Some? && Strip(asked.value) != "" then Some(Strip(asked.value)) else NextVersion(vs)
  }

  function UpdateVersions(e: Entry, a: UpdateArgs): Edit {
    if a.definition.None? && a.version.None? then Edit(e, true)
    else
      var name := VersionName(e.versions, a.version);
      if name.None? || HasVersion(e.versions, name.value) then Edit(e, false)
      else
        var version := Version(name.value, NormalizeDefinition(Given(a.definition, EMPTY_DEFINITION)), e.metadata);
        Edit(e.(versions := e.versions + [version], currentVersion := name.value), true)
  }

  /** `update_prompt_service_definition`: field by field, keeping what was set when a later field raises. */
  function UpdateEntry(e: Entry, a: UpdateArgs, f: Families): Edit {
    var task := UpdateTask(e, a, f);
    if !task.ok then task else
    var name := UpdateName(task.entry, a);
    if !name.ok then name else
    var owner := UpdateOwner(name.entry, a);
    if !owner.ok then owner else
    var privacy := UpdatePrivacy(owner.entry, a);
    if !privacy.ok then privacy else
    var access := UpdateAccess(privacy.entry, a);
    if !access.ok then access else
    UpdateVersions(UpdateSettings(access.entry, a), a)
  }

  function TransitionTo(e: Entry, next: State, reason: string): Entry {
    if e.status == next then e
    else e.(status := next, history := e.history + [Change(next, OrElse(reason, "manual_transition"))])
  }

  function Transition(e: Entry, state: string, reason: string): Edit {
    var next := ParseState(state);
    if next.None? then Edit(e, false) else Edit(TransitionTo(e, next.value, reason), true)
  }

  /** Who reviewed it and why are set even when the state then raises. */
  function Review(e: Entry, reviewedBy: string, reason: string, state: Option<string>): Edit {
    var why := OrElse(reason, "manual_review");
    var reviewed := e.(reviewedBy := OptionalText(reviewedBy), reviewReason := Some(why));
    if state.None? then Edit(reviewed, true) else Transition(reviewed, state.value, why)
  }

  function ApplyProbation(e: Entry, action: string, reason: string): Edit {
    var act := Lower(Strip(action));
    if act == "start" then Edit(TransitionTo(e, Probation, if reason == "" then "probation_started" else reason), true)
    else if act == "clear" then Edit(TransitionTo(e, Active, if reason == "" then "probation_cleared" else reason), true)
    else Edit(e, false)
  }

  function RecordAuthorization(e: Entry, allowed: bool, reason: string, usedAt: string): Entry {
    if allowed then e.(usage := e.usage.(lastUsedAt := Some(usedAt)))
    else
      e.(usage := e.usage.(denials := AtLeastZero(e.usage.denials) + 1, lastDenial := Some(reason), lastDeniedAt := Some(usedAt)))
  }

  function RecordExecution(e: Entry, status: string, recordedAt: string, error: Option<string>): Entry {
    var u := e.usage.(executions := AtLeastZero(e.usage.executions) + 1, lastUsedAt := Some(recordedAt), lastStatus := Some(status));
    e.(usage :=
         if status == "completed" then u.(successes := AtLeastZero(u.successes) + 1)
         else u.(failures := AtLeastZero(u.failures) + 1, lastFailure := error, lastFailureAt := Some(recordedAt)))
  }

  // ---- Soundness of an entry --------------------------------------------

  ghost predicate Name(s: string) {
    s != "" && Trimmed(s)
  }

  ghost predicate OptionalName(o: Option<string>) {
    o.Some? ==> Name(o.value)
  }

  ghost predicate LowerNames(xs: seq<string>) {
    AllLower(xs) && forall i :: 0 <= i < |xs| ==> Name(xs[i])
  }

  ghost predicate LowerName(o: Option<string>) {
    OptionalName(o) && (o.Some? ==> Lower(o.value) == o.value)
  }

  /** Preferences that went through at least one normalisation. */
  ghost predicate SoundPreferences(p: Preferences) {
    LowerNames(p.providers) && LowerNames(p.models) && LowerName(p.defaultProvider) && LowerName(p.defaultModel)
  }

  ghost predicate SoundVersions(vs: seq<Version>, current: string) {
    && vs != []
    && (forall i :: 0 <= i < |vs| ==> Name(vs[i].name))
    && (forall i, j :: 0 <= i < j < |vs| ==> vs[i].name != vs[j].name)
    && exists i :: 0 <= i < |vs| && vs[i].name == current
  }

  ghost predicate SoundHistory(history: seq<Change>, status: State) {
    history != [] && history[|history| - 1].state == status && Name(history[|history| - 1].reason)
  }

  ghost predicate SoundUsage(u: Usage) {
    u.successes >= 0 && u.failures >= 0 && u.denials >= 0 && u.executions == u.successes + u.failures
  }

  ghost predicate SoundNames(e: Entry) {
    && Name(e.promptId) && Name(e.promptName) && Name(e.serviceId) && Name(e.ownerService) && Name(e.taskFamily)
    && OptionalName(e.ownerClient) && OptionalName(e.reviewedBy) && OptionalName(e.reviewReason)
  }

  ghost predicate SoundLists(e: Entry) {
    && Clean(e.services) && Clean(e.clients) && Clean(e.customers) && Clean(e.constraints.overrides)
    && (e.constraints.maxTimeout.Some? ==> e.constraints.maxTimeout.value >= 1)
  }

  /** What every registered prompt satisfies: version names are distinct and
      the current one is stored, the history ends in the present status with
      the reason for it, and executions are successes plus failures. */
  ghost predicate SoundEntry(e: Entry) {
    && SoundNames(e)
    && SoundLists(e)
    && SoundPreferences(e.preferences)
    && SoundVersions(e.versions, e.currentVersion)
    && SoundHistory(e.history, e.status)
    && SoundUsage(e.usage)
  }

  ghost predicate SoundFamilies(f: Families) {
    forall t <- f.canonical :: Name(t)
  }

  // ---- Normalising a sound entry ----------------------------------------

  lemma {:induction false} NamedVersionsKeepNames(vs: seq<Version>)
    requires forall i :: 0 <= i < |vs| ==> Name(vs[i].name)
    ensures NamedVersions(vs) == vs
  {
    if vs != [] {
      var v := vs[|vs| - 1];
      NamedVersionsKeepNames(vs[..|vs| - 1]);
      assert Strip(v.name) == v.name;
      hide Strip;
      assert v.(name := Strip(v.name)) == v;
      assert vs == vs[..|vs| - 1] + [v];
    }
  }

  lemma NamesAreKept(e: Entry)
    requires SoundNames(e)
    ensures Strip(e.promptId) == e.promptId && Strip(e.serviceId) == e.serviceId && Strip(e.taskFamily) == e.taskFamily
    ensures e.promptId != "" && e.serviceId != "" && e.taskFamily != ""
    ensures OrElse(e.promptName, e.promptId) == e.promptName && OrElse(e.ownerService, e.serviceId) == e.ownerService
    ensures Retrim(e.ownerClient) == e.ownerClient && Retrim(e.reviewedBy) == e.reviewedBy && Retrim(e.reviewReason) == e.reviewReason
  {
    hide Trimmed;
  }

  lemma ListsAreKept(e: Entry)
    requires SoundLists(e)
    ensures CleanList(e.services) == e.services && CleanList(e.clients) == e.clients && CleanList(e.customers) == e.customers
    ensures NormalizeConstraints(e.constraints) == e.constraints
  {
    hide Clean;
    CleanListKeepsClean(e.services);
    CleanListKeepsClean(e.clients);
    CleanListKeepsClean(e.customers);
    CleanListKeepsClean(e.constraints.overrides);
    hide CleanList;
  }

  lemma LowerNamesSettle(xs: seq<string>)
    requires LowerNames(xs)
    ensures LowerNames(LowerList(xs)) && LowerList(LowerList(xs)) == LowerList(xs)
  {
    SecondPass(xs);
    SettledListIsKept(LowerList(xs));
  }

  lemma PreferencesSettle(p: Preferences)
    requires SoundPreferences(p)
    ensures SoundPreferences(NormalizePreferences(p))
    ensures NormalizePreferences(NormalizePreferences(p)) == NormalizePreferences(p)
  {
    LowerNamesSettle(p.providers);
    LowerNamesSettle(p.models);
    hide LowerList, LowerNames, Trimmed;
  }

  lemma LowerNamesAfterOnePass(xs: seq<string>)
    ensures LowerNames(LowerList(xs))
  {
    CleanListIsClean(xs);
    LowerAllOfClean(CleanList(xs));
  }

  lemma LowerNameAfterOnePass(o: Option<string>)
    ensures LowerName(LowerOptional(o))
  {
    if o.Some? { LowerIsStable(Strip(o.value)); }
  }

  lemma PreferencesAfterOnePass(p: Preferences)
    ensures SoundPreferences(NormalizePreferences(p))
  {
    hide LowerNames, LowerName, LowerList, LowerOptional;
    LowerNamesAfterOnePass(p.providers);
    LowerNamesAfterOnePass(p.models);
    LowerNameAfterOnePass(p.defaultProvider);
    LowerNameAfterOnePass(p.defaultModel);
  }

  /** Normalising a sound entry never raises and changes at most its preferences, which it settles. */
  lemma NormalizeSoundEntry(e: Entry)
    requires SoundEntry(e)
    ensures NormalizeEntry(e) == Some(e.(preferences := NormalizePreferences(e.preferences)))
    ensures SoundEntry(e.(preferences := NormalizePreferences(e.preferences)))
    ensures NormalizePreferences(NormalizePreferences(e.preferences)) == NormalizePreferences(e.preferences)
  {
    hide SoundNames, SoundLists, SoundPreferences, SoundVersions, NormalizePreferences, NormalizeConstraints, CleanList,
         OrElse, Retrim, NormalizeVersions, Strip, Name;
    PreferencesSettle(e.preferences);
    NamesAreKept(e);
    ListsAreKept(e);
    VersionsAreKept(e);
    SameListsSound(e, NormalizePreferences(e.preferences));
  }

  lemma SameListsSound(e: Entry, p: Preferences)
    ensures SoundNames(e) ==> SoundNames(e.(preferences := p))
    ensures SoundLists(e) ==> SoundLists(e.(preferences := p))
  {
    hide Name, OptionalName, Clean;
  }

  lemma VersionsAreKept(e: Entry)
    requires SoundVersions(e.versions, e.currentVersion)
    ensures NormalizeVersions(e) == e.versions
    ensures Strip(e.currentVersion) == e.currentVersion && e.currentVersion != ""
  {
    hide NamedVersions, Strip, Trimmed, OrElse;
    CurrentIsAName(e);
    NamedVersionsKeepNames(e.versions);
  }

  lemma CurrentIsAName(e: Entry)
    requires SoundVersions(e.versions, e.currentVersion)
    ensures Name(e.currentVersion)
    ensures Strip(e.currentVersion) == e.currentVersion
  {
  }

  // ---- Every edit keeps an entry sound ----------------------------------

  lemma OrElseIsName(text: string, default: string)
    requires Name(default)
    ensures Name(OrElse(text, default))
  {
  }

  lemma ConstraintsAreClean(c: Constraints)
    ensures Clean(NormalizeConstraints(c).overrides)
    ensures NormalizeConstraints(c).maxTimeout.Some? ==> NormalizeConstraints(c).maxTimeout.value >= 1
  {
    CleanListIsClean(c.overrides);
    hide Clean, CleanList;
  }

  lemma LiteralNames()
    ensures Name("v1") && Name("created") && Name("manual_review") && Name("manual_transition")
  {
    assert !IsSpace('v') && !IsSpace('1') && !IsSpace('c') && !IsSpace('d') && !IsSpace('m') && !IsSpace('w') && !IsSpace('n');
  }

  lemma NewEntryHasNames(a: CreateArgs, task: string, state: State, privacy: Privacy, scope: Scope)
    requires Name(task) && Strip(a.promptId) != "" && Strip(a.serviceId) != ""
    ensures SoundNames(NewEntry(a, task, state, privacy, scope))
    ensures Name(NewEntry(a, task, state, privacy, scope).currentVersion)
  {
    LiteralNames();
    OrElseIsName(a.version, "v1");
    OrElseIsName(a.promptName, Strip(a.promptId));
    OrElseIsName(a.ownerService, Strip(a.serviceId));
    hide Trimmed, OrElse, CleanList, NormalizeConstraints, NormalizePreferences, NormalizeDefinition;
  }

  lemma NewEntryHasCleanLists(a: CreateArgs, task: string, state: State, privacy: Privacy, scope: Scope)
    ensures SoundLists(NewEntry(a, task, state, privacy, scope))
    ensures SoundPreferences(NewEntry(a, task, state, privacy, scope).preferences)
  {
    CleanListIsClean(a.services);
    CleanListIsClean(a.clients);
    CleanListIsClean(a.customers);
    ConstraintsAreClean(a.constraints);
    PreferencesAfterOnePass(a.preferences);
    hide Clean, CleanList, NormalizeConstraints, NormalizePreferences, SoundPreferences, OrElse, OptionalText, Strip, NormalizeDefinition;
  }

  lemma NewEntryIsSound(a: CreateArgs, task: string, state: State, privacy: Privacy, scope: Scope)
    requires Name(task) && Strip(a.promptId) != "" && Strip(a.serviceId) != ""
    ensures SoundEntry(NewEntry(a, task, state, privacy, scope))
    ensures NewEntry(a, task, state, privacy, scope).promptId == Strip(a.promptId)
  {
    hide Name, SoundNames, SoundLists, SoundPreferences, SoundVersions, SoundHistory, SoundUsage, CleanList, NormalizeConstraints,
         NormalizePreferences, OrElse, OptionalText, Strip, NormalizeDefinition;
    LiteralNames();
    NewEntryHasNames(a, task, state, privacy, scope);
    NewEntryHasCleanLists(a, task, state, privacy, scope);
    var e := NewEntry(a, task, state, privacy, scope);
    FirstVersionIsSound(e.versions[0], e.currentVersion);
    FirstChangeIsSound(state, "created");
    NoUseIsSound();
  }

  lemma FirstVersionIsSound(v: Version, current: string)
    requires Name(current) && v.name == current
    ensures SoundVersions([v], current)
  {
    hide Name;
    assert [v][0].name == current;
  }

  lemma FirstChangeIsSound(state: State, reason: string)
    requires Name(reason)
    ensures SoundHistory([Change(state, reason)], state)
  {
    hide Name;
  }

  lemma NoUseIsSound()
    ensures SoundUsage(UNUSED)
  {
  }

  /** A registration that is accepted is sound from the start. */
  lemma CreatedEntryIsSound(a: CreateArgs, f: Families)
    requires SoundFamilies(f)
    ensures CreateEntry(a, f).Some? ==> SoundEntry(CreateEntry(a, f).value) && CreateEntry(a, f).value.promptId == Strip(a.promptId)
  {
    var task, state := Canonicalize(f, a.taskFamily), ParseState(a.status);
    var privacy, scope := ParsePrivacy(a.privacy), ParseScope(a.scope);
    hide SoundEntry, NewEntry, ParseState, ParsePrivacy, ParseScope, Name, Lower, Strip;
    if CreateEntry(a, f).Some? {
      NewEntryIsSound(a, task.value, state.value, privacy.value, scope.value);
    }
  }

  lemma UpdateTaskKeepsSound(e: Entry, a: UpdateArgs, f: Families)
    requires SoundFamilies(f) && SoundEntry(e)
    ensures SoundEntry(UpdateTask(e, a, f).entry) && UpdateTask(e, a, f).entry.promptId == e.promptId
  {
    hide Name, OptionalName, Clean, SoundPreferences, SoundVersions, SoundHistory, SoundUsage, Strip, Lower;
  }

  lemma UpdateNameKeepsSound(e: Entry, a: UpdateArgs)
    requires SoundEntry(e)
    ensures SoundEntry(UpdateName(e, a).entry) && UpdateName(e, a).entry.promptId == e.promptId
  {
    hide Trimmed, Clean, SoundPreferences, SoundVersions, SoundHistory, SoundUsage;
  }

  lemma UpdateOwnerKeepsSound(e: Entry, a: UpdateArgs)
    requires SoundEntry(e)
    ensures SoundEntry(UpdateOwner(e, a).entry) && UpdateOwner(e, a).entry.promptId == e.promptId
  {
    hide Trimmed, Clean, SoundPreferences, SoundVersions, SoundHistory, SoundUsage;
  }

  lemma UpdateAccessKeepsSound(e: Entry, a: UpdateArgs)
    requires SoundEntry(e)
    ensures SoundEntry(UpdatePrivacy(e, a).entry) && UpdatePrivacy(e, a).entry.promptId == e.promptId
    ensures SoundEntry(UpdateAccess(e, a).entry) && UpdateAccess(e, a).entry.promptId == e.promptId
  {
    CleanListIsClean(Given(a.services, e.services));
    CleanListIsClean(Given(a.clients, e.clients));
    CleanListIsClean(Given(a.customers, e.customers));
    hide Name, OptionalName, Clean, CleanList, SoundPreferences, SoundVersions, SoundHistory, SoundUsage, ParsePrivacy, ParseScope, Given;
  }

  lemma UpdateSettingsKeepSound(e: Entry, a: UpdateArgs)
    requires SoundEntry(e)
    ensures SoundEntry(UpdateSettings(e, a)) && UpdateSettings(e, a).promptId == e.promptId
  {
    if a.preferences.Some? { PreferencesAfterOnePass(a.preferences.value); }
    if a.constraints.Some? { ConstraintsAreClean(a.constraints.value); }
    hide Name, OptionalName, Clean, SoundPreferences, SoundVersions, SoundHistory, SoundUsage, NormalizePreferences, NormalizeConstraints;
  }

  lemma AppendedVersionIsSound(vs: seq<Version>, current: string, v: Version)
    requires SoundVersions(vs, current) && Name(v.name) && !HasVersion(vs, v.name)
    ensures SoundVersions(vs + [v], v.name)
  {
    assert (vs + [v])[|vs|].name == v.name;
    forall i | 0 <= i < |vs| ensures vs[i].name != v.name {
      assert vs[i] in vs && Strip(vs[i].name) == vs[i].name;
    }
    hide Strip, Trimmed;
  }

  lemma VersionNameIsName(vs: seq<Version>, asked: Option<string>)
    ensures VersionName(vs, asked).Some? ==> Name(VersionName(vs, asked).value)
  {
    NumberedNames(MaxVersion(vs) + 1);
    hide Trimmed, Unnumbered, PrintNat;
  }

  /** Without an explicit name the version is new. */
  lemma NextVersionIsNew(vs: seq<Version>)
    ensures NextVersion(vs).Some? ==> !HasVersion(vs, NextVersion(vs).value)
  {
    NextVersionIsFresh(vs);
    hide NextVersion, Strip;
    if NextVersion(vs).Some? {
      forall v | v in vs ensures Strip(v.name) != NextVersion(vs).value {
        var i :| 0 <= i < |vs| && vs[i] == v;
      }
    }
  }

  /** Adding a version keeps the names distinct and makes it the current one.
      It raises exactly when the name asked for is stored, or none is asked for
      and none can be numbered. */
  lemma UpdateVersionsKeepSound(e: Entry, a: UpdateArgs)
    requires SoundEntry(e)
    ensures SoundEntry(UpdateVersions(e, a).entry) && UpdateVersions(e, a).entry.promptId == e.promptId
    ensures !UpdateVersions(e, a).ok <==>
            && (a.definition.Some? || a.version.Some?)
            && (if a.version.Some? && Strip(a.version.value) != "" then HasVersion(e.versions, Strip(a.version.value))
                else Unnumbered(e.versions))
  {
    NextVersionIsNew(e.versions);
    NextVersionIsFresh(e.versions);
    VersionNameIsName(e.versions, a.version);
    hide NextVersion, Unnumbered, Strip, Name, OptionalName, Clean, SoundPreferences, SoundHistory, SoundUsage, HasVersion,
         NormalizeDefinition;
    var name := VersionName(e.versions, a.version);
    if name.Some? && !HasVersion(e.versions, name.value) {
      var version := Version(name.value, NormalizeDefinition(Given(a.definition, EMPTY_DEFINITION)), e.metadata);
      AppendedVersionIsSound(e.versions, e.currentVersion, version);
    }
    hide SoundVersions;
  }

  /** Whether it returns or raises half-way, an update keeps the entry sound. */
  lemma UpdateKeepsSound(e: Entry, a: UpdateArgs, f: Families)
    requires SoundFamilies(f) && SoundEntry(e)
    ensures SoundEntry(UpdateEntry(e, a, f).entry) && UpdateEntry(e, a, f).entry.promptId == e.promptId
  {
    hide SoundEntry, UpdateTask, UpdateName, UpdateOwner, UpdatePrivacy, UpdateAccess, UpdateSettings, UpdateVersions;
    UpdateTaskKeepsSound(e, a, f);
    var task := UpdateTask(e, a, f).entry;
    UpdateNameKeepsSound(task, a);
    var name := UpdateName(task, a).entry;
    UpdateOwnerKeepsSound(name, a);
    var owner := UpdateOwner(name, a).entry;
    UpdateAccessKeepsSound(owner, a);
    var privacy := UpdatePrivacy(owner, a).entry;
    UpdateAccessKeepsSound(privacy, a);
    var access := UpdateAccess(privacy, a).entry;
    UpdateSettingsKeepSound(access, a);
    UpdateVersionsKeepSound(UpdateSettings(access, a), a);
  }

  lemma TransitionKeepsSound(e: Entry, next: State, reason: string)
    requires SoundEntry(e)
    ensures SoundEntry(TransitionTo(e, next, reason)) && TransitionTo(e, next, reason).promptId == e.promptId
  {
    LiteralNames();
    OrElseIsName(reason, "manual_transition");
    hide Clean, SoundPreferences, SoundVersions, SoundUsage, Name, OptionalName, OrElse;
  }

  lemma ReviewKeepsSound(e: Entry, reviewedBy: string, reason: string, state: Option<string>)
    requires SoundEntry(e)
    ensures SoundEntry(Review(e, reviewedBy, reason, state).entry) && Review(e, reviewedBy, reason, state).entry.promptId == e.promptId
  {
    LiteralNames();
    OrElseIsName(reason, "manual_review");
    hide Clean, SoundPreferences, SoundVersions, SoundHistory, SoundUsage, ParseState, Trimmed, TransitionTo, OrElse;
    var why := OrElse(reason, "manual_review");
    var reviewed := e.(reviewedBy := OptionalText(reviewedBy), reviewReason := Some(why));
    assert SoundEntry(reviewed);
    if state.Some? && ParseState(state.value).Some? { TransitionKeepsSound(reviewed, ParseState(state.value).value, why); }
  }

  lemma ProbationKeepsSound(e: Entry, action: string, reason: string)
    requires SoundEntry(e)
    ensures SoundEntry(ApplyProbation(e, action, reason).entry) && ApplyProbation(e, action, reason).entry.promptId == e.promptId
  {
    hide SoundEntry, TransitionTo, Lower, Strip;
    TransitionKeepsSound(e, Probation, if reason == "" then "probation_started" else reason);
    TransitionKeepsSound(e, Active, if reason == "" then "probation_cleared" else reason);
  }

  lemma RecordingKeepsSound(e: Entry, allowed: bool, text: string, at: string, error: Option<string>)
    requires SoundEntry(e)
    ensures SoundEntry(RecordAuthorization(e, allowed, text, at)) && SoundEntry(RecordExecution(e, text, at, error))
    ensures RecordAuthorization(e, allowed, text, at).promptId == e.promptId == RecordExecution(e, text, at, error).promptId
  {
    hide Clean, SoundPreferences, SoundVersions, SoundHistory, Name, OptionalName;
  }

  // ---- What an edit that raises leaves alone ----------------------------

  /** The parts of an entry that the probation index is made of. */
  ghost predicate SamePlace(a: Entry, b: Entry) {
    a.promptId == b.promptId && a.status == b.status && a.history == b.history
  }

  lemma FirstStagesKeepPlace(e: Entry, a: UpdateArgs, f: Families)
    ensures SamePlace(UpdateTask(e, a, f).entry, e) && SamePlace(UpdateName(e, a).entry, e)
    ensures SamePlace(UpdateOwner(e, a).entry, e) && SamePlace(UpdatePrivacy(e, a).entry, e)
  {
    hide Canonicalize, ParsePrivacy, Strip, OptionalText;
  }

  lemma LaterStagesKeepPlace(e: Entry, a: UpdateArgs)
    ensures SamePlace(UpdateAccess(e, a).entry, e) && SamePlace(UpdateSettings(e, a), e)
    ensures SamePlace(UpdateVersions(e, a).entry, e)
  {
    hide ParseScope, NormalizePreferences, NormalizeConstraints, NormalizeDefinition, CleanList, HasVersion, VersionName;
  }

  lemma StagesKeepPlace(e: Entry, a: UpdateArgs, f: Families)
    ensures SamePlace(UpdateTask(e, a, f).entry, e) && SamePlace(UpdateName(e, a).entry, e)
    ensures SamePlace(UpdateOwner(e, a).entry, e) && SamePlace(UpdatePrivacy(e, a).entry, e)
    ensures SamePlace(UpdateAccess(e, a).entry, e) && SamePlace(UpdateSettings(e, a), e)
    ensures SamePlace(UpdateVersions(e, a).entry, e)
  {
    hide *;
    FirstStagesKeepPlace(e, a, f);
    LaterStagesKeepPlace(e, a);
  }

  /** An update keeps the place of an entry, whether it raises or not. */
  lemma UpdateKeepsPlace(e: Entry, a: UpdateArgs, f: Families)
    ensures SamePlace(UpdateEntry(e, a, f).entry, e)
  {
    hide UpdateTask, UpdateName, UpdateOwner, UpdatePrivacy, UpdateAccess, UpdateSettings, UpdateVersions;
    StagesKeepPlace(e, a, f);
    var task := UpdateTask(e, a, f).entry;
    StagesKeepPlace(task, a, f);
    var name := UpdateName(task, a).entry;
    StagesKeepPlace(name, a, f);
    var owner := UpdateOwner(name, a).entry;
    StagesKeepPlace(owner, a, f);
    var privacy := UpdatePrivacy(owner, a).entry;
    StagesKeepPlace(privacy, a, f);
    var access := UpdateAccess(privacy, a).entry;
    StagesKeepPlace(access, a, f);
    StagesKeepPlace(UpdateSettings(access, a), a, f);
  }

  /** A review that raises has set who reviewed and why, and nothing else. */
  lemma RaisingReviewKeepsPlace(e: Entry, reviewedBy: string, reason: string, state: Option<string>)
    ensures !Review(e, reviewedBy, reason, state).ok ==> SamePlace(Review(e, reviewedBy, reason, state).entry, e)
  {
    hide ParseState, OrElse, OptionalText;
  }
}

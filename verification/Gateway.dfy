/** The execution gateway: it reads the prompt registry and decides whether a
    prompt may be executed. */
module Gateway {
  import opened Text
  import opened PromptEntries
  import opened PromptRegistry
  import opened PromptRuns

  datatype Verdict =
    | MissingPromptId | MissingTaskFamily | NotRegistered | TaskFamilyMismatch | InvalidVersion | InProbation
    | StateInvalid | AccessDenied | ProviderNotAllowed | ModelOverrideNotAllowed | StructuredOutputRequired
    | Authorized(version: string)

  datatype Call = Call(
    promptId: string, taskFamily: string, version: string, requestedBy: string, serviceId: string, customerId: string,
    requestedProvider: string, requestedModel: string, hasSchema: bool)

  /** `find_prompt_version` on an entry that stores versions. */
  function FindVersion(e: Entry, version: string): (r: Option<Version>)
    ensures r.Some? ==> r.value in e.versions
  {
    var target := if Strip(version) != "" then Strip(version) else Strip(e.currentVersion);
    if target == "" then None else FindNamed(e.versions, target, 0)
  }

  function FindNamed(vs: seq<Version>, name: string, i: nat): (r: Option<Version>)
    requires i <= |vs|
    ensures r.Some? ==> r.value in vs && Strip(r.value.name) == name
    ensures r.None? ==> forall j :: i <= j < |vs| ==> Strip(vs[j].name) != name
    decreases |vs| - i
  {
    if i == |vs| then None
    else if Strip(vs[i].name) == name then Some(vs[i])
    else FindNamed(vs, name, i + 1)
  }

  /** `_is_caller_allowed`. */
  predicate CallerAllowed(e: Entry, c: Call) {
    var ownerService := Strip(if e.ownerService != "" then e.ownerService else e.serviceId);
    var ownerClient := if e.ownerClient.Some? then Strip(e.ownerClient.value) else "";
    var client := Strip(c.requestedBy);
    var service := if Strip(c.serviceId) != "" then Strip(c.serviceId) else client;
    var customer := Strip(c.customerId);
    var owner := (ownerClient != "" && client == ownerClient) || (ownerService != "" && service == ownerService);
    match e.scope
    case Public => true
    case Private => owner
    case Service => ownerService == "" || service == ownerService
    case Shared =>
      || owner
      || (service != "" && service in CleanList(e.services))
      || (client != "" && client in CleanList(e.clients))
      || (customer != "" && customer in CleanList(e.customers))
  }

  function LowerTrimmed(xs: seq<string>): set<string> {
    set x <- xs | Strip(x) != "" :: Lower(Strip(x))
  }

  /** `ExecutionGateway.authorize`. */
  function Authorize(s: RegistryState, c: Call): Verdict {
    var prompt, task := Strip(c.promptId), Strip(c.taskFamily);
    if prompt == "" then MissingPromptId
    else if task == "" then MissingTaskFamily
    else
      var at := Find(s.entries, prompt);
      if at.None? then NotRegistered
      else AuthorizeEntry(s.entries[at.value], task, c)
  }

  function AuthorizeEntry(e: Entry, task: string, c: Call): Verdict {
    var version := FindVersion(e, c.version);
    var provider, model := Lower(Strip(c.requestedProvider)), Lower(Strip(c.requestedModel));
    var providers, models, overrides :=
      LowerTrimmed(e.preferences.providers), LowerTrimmed(e.preferences.models), LowerTrimmed(e.constraints.overrides);
    if Strip(e.taskFamily) != task then TaskFamilyMismatch
    else if version.None? then InvalidVersion
    else if e.status == Probation then InProbation
    else if e.status != Active && e.status != ReviewDue then StateInvalid
    else if !CallerAllowed(e, c) then AccessDenied
    else if !e.policy.direct then StateInvalid
    else if provider != "" && providers != {} && provider !in providers then ProviderNotAllowed
    else if model != "" && overrides != {} && model !in overrides + models then ModelOverrideNotAllowed
    else if e.constraints.structured && !c.hasSchema then StructuredOutputRequired
    else Authorized(Strip(version.value.name))
  }

  /** A sound entry always finds its current version; a pinned one is found exactly when it is stored. */
  lemma VersionsAreFound(e: Entry, version: string)
    requires SoundVersions(e.versions, e.currentVersion)
    ensures Strip(version) == "" ==>
              FindVersion(e, version).Some? && Strip(FindVersion(e, version).value.name) == e.currentVersion
    ensures Strip(version) != "" ==>
              (FindVersion(e, version).Some? <==> exists i :: 0 <= i < |e.versions| && e.versions[i].name == Strip(version))
  {
    CurrentIsAName(e);
    forall i | 0 <= i < |e.versions| ensures Strip(e.versions[i].name) == e.versions[i].name { NameIsStripped(e.versions[i].name); }
    hide Strip, Name;
    var found := FindVersion(e, version);
    if found.Some? {
      var i :| 0 <= i < |e.versions| && e.versions[i] == found.value;
    }
  }

  lemma NameIsStripped(name: string)
    requires Name(name)
    ensures Strip(name) == name
  {
  }

  lemma SameIdSamePlace(es: seq<Entry>, i: nat, j: nat)
    requires SoundEntries(es) && i < |es| && j < |es| && es[i].promptId == es[j].promptId
    ensures i == j
  {
    hide SoundEntry;
  }

  /** The search finds a registered prompt at its own place. */
  lemma RegisteredIsFound(es: seq<Entry>, promptId: string, at: nat)
    requires SoundEntries(es) && at < |es| && es[at].promptId == Strip(promptId)
    ensures Find(es, Strip(promptId)) == Some(at)
    ensures Strip(promptId) != "" && es[at].taskFamily != "" && Strip(es[at].taskFamily) == es[at].taskFamily
  {
    FindIsById(es, Strip(promptId));
    NamesAreKept(es[at]);
    assert es[at].promptId != "" && es[at].taskFamily != "" by { hide SoundLists, SoundPreferences, SoundVersions; }
    assert Strip(Strip(promptId)) == Strip(promptId);
    hide SoundEntry, Strip;
    var found := Find(es, Strip(promptId));
    if found.Some? { SameIdSamePlace(es, found.value, at); }
  }

  /** Authorizing a registered prompt is judging its entry. */
  lemma RegisteredIsJudged(s: RegistryState, c: Call, at: nat)
    requires SoundEntries(s.entries) && at < |s.entries| && s.entries[at].promptId == Strip(c.promptId)
    ensures Authorize(s, c) == if Strip(c.taskFamily) == "" then MissingTaskFamily
                               else AuthorizeEntry(s.entries[at], Strip(c.taskFamily), c)
    ensures s.entries[at].taskFamily != "" && Strip(s.entries[at].taskFamily) == s.entries[at].taskFamily
  {
    RegisteredIsFound(s.entries, c.promptId, at);
    hide SoundEntries, Find, AuthorizeEntry, Strip;
  }

  /** A requested provider outside the prompt's own list. */
  predicate BarredProvider(e: Entry, c: Call) {
    var provider, providers := Lower(Strip(c.requestedProvider)), LowerTrimmed(e.preferences.providers);
    provider != "" && providers != {} && provider !in providers
  }

  /** A requested model that is neither preferred nor allowed as an override, where overrides are limited. */
  predicate BarredModel(e: Entry, c: Call) {
    var model, overrides := Lower(Strip(c.requestedModel)), LowerTrimmed(e.constraints.overrides);
    model != "" && overrides != {} && model !in overrides && model !in LowerTrimmed(e.preferences.models)
  }

  /** A prompt that is served at all: of the family, in a live state, run directly, open to the caller. */
  predicate Served(e: Entry, task: string, c: Call) {
    && Strip(e.taskFamily) == task && FindVersion(e, c.version).Some?
    && (e.status == Active || e.status == ReviewDue) && CallerAllowed(e, c) && e.policy.direct
  }

  /** When each verdict on a registered prompt is given. */
  lemma EntryVerdicts(e: Entry, task: string, c: Call)
    ensures var v := AuthorizeEntry(e, task, c);
      && (v.TaskFamilyMismatch? <==> Strip(e.taskFamily) != task)
      && (v.InvalidVersion? <==> Strip(e.taskFamily) == task && FindVersion(e, c.version).None?)
      && (v.InProbation? <==> Strip(e.taskFamily) == task && FindVersion(e, c.version).Some? && e.status == Probation)
      && (v.AccessDenied? <==>
            && Strip(e.taskFamily) == task && FindVersion(e, c.version).Some?
            && (e.status == Active || e.status == ReviewDue) && !CallerAllowed(e, c))
      && (v.StateInvalid? <==>
            && Strip(e.taskFamily) == task && FindVersion(e, c.version).Some? && e.status != Probation
            && (e.status == Active || e.status == ReviewDue ==> CallerAllowed(e, c) && !e.policy.direct))
      && (v.ProviderNotAllowed? <==> Served(e, task, c) && BarredProvider(e, c))
      && (v.ModelOverrideNotAllowed? <==> Served(e, task, c) && !BarredProvider(e, c) && BarredModel(e, c))
      && (v.StructuredOutputRequired? <==>
            && Served(e, task, c) && !BarredProvider(e, c) && !BarredModel(e, c)
            && e.constraints.structured && !c.hasSchema)
      && (v.Authorized? <==>
            && Served(e, task, c) && !BarredProvider(e, c) && !BarredModel(e, c)
            && (e.constraints.structured ==> c.hasSchema))
      && (v.Authorized? ==> v.version == Strip(FindVersion(e, c.version).value.name))
  {
    hide FindVersion, CallerAllowed, Lower, LowerTrimmed, Strip;
  }

  /** An unpinned call on a registered prompt of its family is never answered
      with an invalid version, and a pinned one exactly when the version is not stored. */
  lemma VersionVerdict(s: RegistryState, c: Call, at: nat)
    requires SoundEntries(s.entries) && at < |s.entries|
    requires s.entries[at].promptId == Strip(c.promptId) && s.entries[at].taskFamily == Strip(c.taskFamily)
    ensures var e := s.entries[at];
      Authorize(s, c).InvalidVersion? <==>
      Strip(c.version) != "" && forall i :: 0 <= i < |e.versions| ==> e.versions[i].name != Strip(c.version)
  {
    var e := s.entries[at];
    RegisteredIsJudged(s, c, at);
    EntryVerdicts(e, Strip(c.taskFamily), c);
    VersionsAreFound(e, c.version);
    hide SoundEntry, SoundEntries, Authorize, AuthorizeEntry, FindVersion, Strip, CallerAllowed, BarredProvider, BarredModel, Served;
  }

  /** In every run, on memory or store: an unpinned call on a registered prompt
      of its family never gets an invalid version, and a pinned one exactly when
      the version is not stored. */
  lemma UnpinnedCallsFindTheirVersion(ops: seq<Operation>, n: nat, f: Families, s: RegistryState, c: Call, at: nat)
    requires n <= |ops| && SoundFamilies(f)
    requires s in [RegistryAfter(ops, n, f).memory, RegistryAfter(ops, n, f).stored]
    requires at < |s.entries|
    ensures var e := s.entries[at];
      e.promptId == Strip(c.promptId) && e.taskFamily == Strip(c.taskFamily) ==>
        (Authorize(s, c).InvalidVersion? <==>
         Strip(c.version) != "" && forall i :: 0 <= i < |e.versions| ==> e.versions[i].name != Strip(c.version))
  {
    hide RegistryAfter, SoundEntries, IndexOf, Authorize, Strip;
    EveryStateIsIndexed(ops, n, f);
    if s.entries[at].promptId == Strip(c.promptId) && s.entries[at].taskFamily == Strip(c.taskFamily) {
      VersionVerdict(s, c, at);
    }
  }

  /** Under an exact index a listed prompt is never authorized. */
  lemma ListedIsNeverAuthorized(s: RegistryState, c: Call)
    requires Indexed(s) && Strip(c.promptId) in s.probation.ids
    ensures !Authorize(s, c).Authorized?
  {
    hide StrictlySorted, HasReason, Strip, SoundEntries, IndexOf, Authorize, AuthorizeEntry, CallerAllowed, BarredProvider, BarredModel;
    IndexIsExact(s);
    var i :| 0 <= i < |s.entries| && s.entries[i].status == Probation && s.entries[i].promptId == Strip(c.promptId);
    RegisteredIsJudged(s, c, i);
    EntryVerdicts(s.entries[i], Strip(c.taskFamily), c);
  }

  /** In every run a prompt in the probation index is never authorized, whoever asks. */
  lemma ProbationIsNeverAuthorized(ops: seq<Operation>, n: nat, f: Families, s: RegistryState, c: Call)
    requires n <= |ops| && SoundFamilies(f)
    requires s in [RegistryAfter(ops, n, f).memory, RegistryAfter(ops, n, f).stored]
    requires Strip(c.promptId) in s.probation.ids
    ensures !Authorize(s, c).Authorized?
  {
    hide RegistryAfter, Indexed, Authorize, Strip;
    EveryStateIsIndexed(ops, n, f);
    ListedIsNeverAuthorized(s, c);
  }
}

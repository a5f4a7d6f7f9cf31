/** The governance check of one execution, and its agreement with provider selection. */
module ExecutionGovernance {
  import opened Money
  import opened Text
  import opened ProviderSelection

  datatype Verdict = Allowed | BadTaskFamily | BadTimeout | BadInputSize | BadProvider | BadModel

  /** Constraints a request brings along; the empty ones leave the bundle in force. */
  datatype Overrides = Overrides(
    routing: Option<Routing>,
    approvedProviders: seq<string>,
    approvedModels: Option<seq<(string, seq<string>)>>)

  const NO_OVERRIDES := Overrides(None, [], None)

  // ---- Task families ----------------------------------------------------

  /** A full name admits itself; a short name also `task.name` and all beneath it. */
  predicate AdmitsFamily(allowed: string, family: string) {
    var name := Id(allowed);
    && name != ""
    && (family == name
        || (!StartsWith(name, "task.") && (family == "task." + name || StartsWith(family, "task." + name + "."))))
  }

  predicate FamilyAllowed(taskFamily: string, families: seq<string>) {
    Id(taskFamily) != "" && (families == [] || exists i :: 0 <= i < |families| && AdmitsFamily(families[i], Id(taskFamily)))
  }

  method TaskFamilyAllowed(taskFamily: string, families: seq<string>) returns (allowed: bool)
    ensures allowed == FamilyAllowed(taskFamily, families)
  {
    hide Id, StartsWith;
    var family := Id(taskFamily);
    if family == "" {
      return false;
    }
    if families == [] {
      return true;
    }
    for i := 0 to |families|
      invariant forall j :: 0 <= j < i ==> !AdmitsFamily(families[j], family)
    {
      var name := Id(families[i]);
      if name == "" {
        continue;
      }
      if StartsWith(name, "task.") {
        if family == name {
          assert AdmitsFamily(families[i], family);
          return true;
        }
        continue;
      }
      if family == name || family == "task." + name || StartsWith(family, "task." + name + ".") {
        assert AdmitsFamily(families[i], family);
        return true;
      }
    }
    return false;
  }

  /** A name admits `task.name` and what follows a dot, and never a longer
      family that goes on with another character. */
  lemma FamiliesEndAtADot(name: string, c: char, rest: string)
    requires name != "" && Id(name) == name && !StartsWith(name, "task.")
    requires Id("task." + name + [c] + rest) == "task." + name + [c] + rest
    ensures FamilyAllowed("task." + name + [c] + rest, [name]) <==> c == '.'
  {
    hide Id;
    var family := "task." + name + [c] + rest;
    assert family[|"task." + name|] == c;
    assert family[..5] == "task.";
    assert family[..|"task." + name + [c]|] == "task." + name + [c];
    assert AdmitsFamily([name][0], family) <==> c == '.' by {
      assert StartsWith(family, "task.");
      assert |family| > |"task." + name|;
      if StartsWith(family, "task." + name + ".") {
        assert family[..|"task." + name + "."|][|"task." + name|] == '.';
      }
    }
  }

  // ---- The verdict ------------------------------------------------------

  function Get(items: seq<(string, seq<string>)>, key: string): seq<string> {
    if items == [] then []
    else if items[|items| - 1].0 == key then items[|items| - 1].1
    else Get(items[..|items| - 1], key)
  }

  function RoutingInForce(bundle: Governance, request: Overrides): Routing {
    if request.routing.Some? then request.routing.value else bundle.routing
  }

  function ProvidersInForce(bundle: Governance, request: Overrides): seq<string> {
    CleanList(if request.approvedProviders != [] then request.approvedProviders else bundle.approvedProviders)
  }

  function ModelsInForce(bundle: Governance, request: Overrides, provider: string): seq<string> {
    var items := if request.approvedModels.Some? then request.approvedModels.value else bundle.approvedModels;
    var listed := CleanList(Get(items, Id(provider)));
    if listed == [] then CleanList(Get(items, Strip(provider))) else listed
  }

  /** `evaluate_execution_governance`; `inputBytes` is the size of the inputs written out. */
  function Evaluate(taskFamily: string, timeout: int, inputBytes: nat, bundle: Governance, request: Overrides,
                    provider: Option<string>, model: Option<string>): Verdict
  {
    var routing := RoutingInForce(bundle, request);
    var providers := ProvidersInForce(bundle, request);
    if !FamilyAllowed(taskFamily, CleanList(bundle.allowedFamilies)) then BadTaskFamily
    else if routing.maxTimeout.Some? && timeout > Max(routing.maxTimeout.value, 1) then BadTimeout
    else if routing.maxInputBytes.Some? && inputBytes > Max(routing.maxInputBytes.value, 0) then BadInputSize
    else if provider.Some? && providers != [] && Id(provider.value) !in LowerAll(providers) then BadProvider
    else if && provider.Some? && model.Some?
            && ModelsInForce(bundle, request, provider.value) != []
            && Id(model.value) !in LowerAll(ModelsInForce(bundle, request, provider.value)) then BadModel
    else Allowed
  }

  // ---- Agreement with selection -----------------------------------------

  /** The last of the first `n` keys that normalise to `key` is `key` itself. */
  predicate LastIsExact(items: seq<(string, seq<string>)>, n: nat, key: string)
    requires n <= |items|
  {
    n > 0 && if Id(items[n - 1].0) == key then items[n - 1].0 == key else LastIsExact(items, n - 1, key)
  }

  predicate HasKey(items: seq<(string, seq<string>)>, key: string) {
    exists i :: 0 <= i < |items| && items[i].0 == key
  }

  /** No other spelling of a listed key comes after it: so for every dictionary
      of lower-case trimmed keys, and for every key that is not listed as such. */
  predicate KeyAgrees(items: seq<(string, seq<string>)>, key: string) {
    HasKey(items, key) ==> LastIsExact(items, |items|, key)
  }

  /** A dictionary whose keys are already lower-case and trimmed. */
  ghost predicate NormalKeys(items: seq<(string, seq<string>)>) {
    forall i :: 0 <= i < |items| ==> Id(items[i].0) == items[i].0
  }

  lemma {:induction false} NormalKeysAgree(items: seq<(string, seq<string>)>, n: nat, key: string)
    requires n <= |items| && NormalKeys(items)
    ensures (exists i :: 0 <= i < n && items[i].0 == key) ==> LastIsExact(items, n, key)
    ensures n == |items| ==> KeyAgrees(items, key)
  {
    hide Id;
    if n > 0 {
      NormalKeysAgree(items, n - 1, key);
    }
  }

  lemma {:induction false} ExactKeysAreFound(items: seq<(string, seq<string>)>, n: nat, key: string)
    requires n <= |items| && key != "" && Id(key) == key && LastIsExact(items, n, key)
    ensures ModelsOf(ModelsById(items, n), key) == LowerList(Get(items[..n], key))
  {
    hide Id, LowerList;
    assert items[..n][..n - 1] == items[..n - 1];
    if Id(items[n - 1].0) != key {
      ExactKeysAreFound(items, n - 1, key);
    }
  }

  lemma {:induction false} MissingKeysAreEmpty(items: seq<(string, seq<string>)>, key: string)
    requires !HasKey(items, key)
    ensures Get(items, key) == []
  {
    if items != [] {
      var rest := items[..|items| - 1];
      assert items[|items| - 1].0 != key;
      assert forall i :: 0 <= i < |rest| ==> rest[i] == items[i];
      MissingKeysAreEmpty(rest, key);
    }
  }

  lemma EmptyList()
    ensures LowerList([]) == []
  {
  }

  /** Members of a lower-cased list are their own identifiers. */
  lemma ListedIsNormal(xs: seq<string>, x: string)
    requires x in LowerList(xs)
    ensures Id(x) == x && Strip(x) == x && x != ""
  {
    hide Strip, Trimmed, CleanList;
    CleanListIsClean(xs);
    LowerAllOfClean(CleanList(xs));
    assert Strip(x) == x by {
      StripKeepsTrimmed(x);
    }
  }

  lemma StripKeepsTrimmed(x: string)
    ensures Trimmed(x) ==> Strip(x) == x
  {
  }

  lemma IdIsNormal(x: string)
    ensures Id(Id(x)) == Id(x)
  {
    hide TrimStart, TrimEnd, Lower;
    LowerIsStable(Strip(x));
    StripKeepsTrimmed(Lower(Strip(x)));
  }

  lemma {:induction false} CommonAreShared(usable: seq<string>, approved: seq<string>)
    ensures forall m :: m in Common(usable, approved) <==> m in usable && m in approved
  {
    if usable != [] {
      CommonAreShared(usable[..|usable| - 1], approved);
      assert usable == usable[..|usable| - 1] + [usable[|usable| - 1]];
    }
  }

  /** The branch that lets the requested model in although the usable and the
      approved models have nothing in common. */
  predicate Readmitted(input: Input, provider: string) {
    var usable, approved := Usable(input, provider), ApprovedModels(input, provider);
    var requested := Id(input.requestedModel);
    usable != [] && approved != [] && Common(usable, approved) == [] && requested != "" && requested !in approved
  }

  lemma AllowedModelsAreApprovedIff(usable: seq<string>, approved: seq<string>, requested: string, model: string)
    requires model in AllowedModels(usable, approved, requested)
    requires forall m :: m in usable || m in approved ==> m != ""
    ensures approved == [] || model in approved <==>
            !(usable != [] && approved != [] && Common(usable, approved) == [] && requested != "" && requested !in approved)
  {
    CommonAreShared(usable, approved);
  }

  /** The selection offers the model of the provider. */
  predicate Emits(input: Input, provider: string, model: string) {
    provider in Select(input).models && model in Select(input).models[provider]
  }

  /** The order, models and timeout of a selection that chose some provider. */
  lemma SelectedParts(input: Input, provider: string, model: string)
    ensures Emits(input, provider, model) ==>
              provider in Order(input) && model in ModelsFor(input, provider) && Select(input).timeout == Timeout(input)
  {
    hide Order, ModelsFor, Timeout, AllEligible, Enabled, Qualifies;
    EachSelectedProviderIsServed(input, provider);
    OrderIsExact(input);
  }

  lemma SelectedProviderIsNormal(input: Input, provider: string)
    requires provider in Order(input)
    ensures Id(provider) == provider && Strip(provider) == provider && provider != ""
    ensures Approved(input, provider)
  {
    hide Order, Approved, Id, Strip, LowerList, Healthy, Affordable;
    OrderIsExact(input);
    ListedIsNormal(input.enabled, provider);
  }

  lemma ListedModelIsNormal(items: seq<(string, seq<string>)>, n: nat, provider: string, model: string)
    requires n <= |items|
    ensures model in ModelsOf(ModelsById(items, n), provider) ==> Id(model) == model && model != ""
  {
    hide Id, LowerList;
    if n > 0 {
      ListedModelIsNormal(items, n - 1, provider, model);
      if model in LowerList(items[n - 1].1) {
        ListedIsNormal(items[n - 1].1, model);
      }
    }
  }

  lemma SelectedModelIsNormal(input: Input, provider: string, model: string)
    requires model in ModelsFor(input, provider)
    ensures Id(model) == model
    ensures forall m :: m in Usable(input, provider) || m in ApprovedModels(input, provider) ==> m != ""
  {
    hide Id, ModelsById;
    var usable, approved := input.usableModels, input.governance.approvedModels;
    forall m | m in Usable(input, provider) || m in ApprovedModels(input, provider) ensures Id(m) == m && m != "" {
      if m in Usable(input, provider) {
        ListedModelIsNormal(usable, |usable|, provider, m);
      } else {
        ListedModelIsNormal(approved, |approved|, provider, m);
      }
    }
    CommonAreShared(Usable(input, provider), ApprovedModels(input, provider));
    IdIsNormal(input.requestedModel);
  }

  lemma CapHolds(input: Input)
    ensures input.governance.routing.maxTimeout.Some? ==>
              Timeout(input) <= Max(input.governance.routing.maxTimeout.value, 1)
    ensures 1 <= Timeout(input)
  {
  }

  /** The governance check of a selected provider, model and timeout fails on
      none of the three, except on a model that was let back in against a list
      that governance keeps under that provider's name. */
  lemma SelectionIsAllowedIff(input: Input, provider: string, model: string, taskFamily: string, inputBytes: nat)
    requires KeyAgrees(input.governance.approvedModels, provider)
    ensures var cap, items := input.governance.routing.maxInputBytes, input.governance.approvedModels;
      Emits(input, provider, model) ==>
        Evaluate(taskFamily, Select(input).timeout, inputBytes, input.governance, NO_OVERRIDES, Some(provider), Some(model)) ==
        (if !FamilyAllowed(taskFamily, CleanList(input.governance.allowedFamilies)) then BadTaskFamily
         else if cap.Some? && inputBytes > Max(cap.value, 0) then BadInputSize
         else if HasKey(items, provider) && Readmitted(input, provider) then BadModel
         else Allowed)
  {
    hide FamilyAllowed, Select, Emits, Order, Id, CleanList, Strip, ModelsFor, Usable, Common, Timeout, Get, HasKey, Readmitted,
         AllowedModels, Approved, LastIsExact, ModelsInForce;
    if Emits(input, provider, model) {
      SelectedParts(input, provider, model);
      SelectedProviderIsNormal(input, provider);
      SelectedModelIsNormal(input, provider, model);
      CapHolds(input);
      ListInForceAllowsIff(input, provider, model);
      ApprovedProviderPasses(input, provider);
    }
  }

  lemma ApprovedProviderPasses(input: Input, provider: string)
    requires Approved(input, provider) && Id(provider) == provider
    ensures var providers := ProvidersInForce(input.governance, NO_OVERRIDES);
      providers != [] ==> Id(provider) in LowerAll(providers)
  {
    hide Id, CleanList;
  }

  lemma ListInForceAllowsIff(input: Input, provider: string, model: string)
    requires KeyAgrees(input.governance.approvedModels, provider)
    requires Id(provider) == provider && Strip(provider) == provider && provider != ""
    ensures var listed := ModelsInForce(input.governance, NO_OVERRIDES, provider);
      model in ModelsFor(input, provider) ==>
      (listed == [] || Id(model) in LowerAll(listed) <==>
       !(HasKey(input.governance.approvedModels, provider) && Readmitted(input, provider)))
  {
    hide Id, CleanList, Strip, Usable, Common, Get, HasKey, LastIsExact, ModelsFor, AllowedModels;
    if model in ModelsFor(input, provider) {
      SelectedModelIsNormal(input, provider, model);
      var items := input.governance.approvedModels;
      assert ModelsInForce(input.governance, NO_OVERRIDES, provider) == CleanList(Get(items, provider));
      if HasKey(items, provider) {
        ExactKeysAreFound(items, |items|, provider);
        assert items[..|items|] == items;
        assert ApprovedModels(input, provider) == LowerAll(CleanList(Get(items, provider)));
        ModelsForIs(input, provider);
        AllowedModelsAreApprovedIff(Usable(input, provider), ApprovedModels(input, provider), Id(input.requestedModel), model);
      } else {
        MissingKeysAreEmpty(items, provider);
        NothingListed();
      }
    }
  }

  lemma ModelsForIs(input: Input, provider: string)
    ensures ModelsFor(input, provider) ==
            AllowedModels(Usable(input, provider), ApprovedModels(input, provider), Id(input.requestedModel))
  {
  }

  // ---- A model let back in ----------------------------------------------

  lemma OneName(x: string)
    requires |x| == 1 && 'a' <= x[0] <= 'z'
    ensures Id(x) == x && CleanList([x]) == [x] && LowerList([x]) == [x]
  {
    hide Strip;
    StripKeepsTrimmed(x);
    assert Lower(x) == x;
    assert CleanList([x][..0]) == [];
    assert LowerAll([x]) == [x];
  }

  /** The provider lists model a, governance approves model b, the request asks for c. */
  const DISJOINT := Input(
    ["p"], "", "", "c", [("p", "available")], [("p", ["a"])], map[], [], 60, None,
    Governance([], [("p", ["b"])], Routing(None, None, None), []))

  lemma DisjointParts()
    ensures Enabled(DISJOINT) == ["p"] && AllEligible(DISJOINT) == ["p"]
    ensures Usable(DISJOINT, "p") == ["a"] && ApprovedModels(DISJOINT, "p") == ["b"]
    ensures Healthy(DISJOINT, "p") && Affordable(DISJOINT, "p")
  {
    hide Id, LowerList, CleanList;
    OneName("p");
    OneName("a");
    OneName("b");
    assert LowerList([]) == [] by {
      EmptyList();
    }
    assert Eligible(DISJOINT, 0) == [] && Eligible(DISJOINT, 1) == ["p"];
    assert ModelsById(DISJOINT.usableModels, 0) == map[];
    assert ModelsById(DISJOINT.governance.approvedModels, 0) == map[];
    assert AvailabilityById(DISJOINT.availability, 0) == map[];
    assert LimitsById(DISJOINT.limits, 0) == map[];
    assert Id("available") == "available" by {
      AvailableIsNormal();
    }
  }

  lemma AvailableIsNormal()
    ensures Id("available") == "available"
  {
    hide Strip;
    StripKeepsTrimmed("available");
    assert Lower("available") == "available";
  }

  /** Selection can emit a model the governance check refuses. */
  lemma SelectionCanEmitARefusedModel(inputBytes: nat)
    ensures "p" in Select(DISJOINT).models && Select(DISJOINT).models["p"] == ["c"]
    ensures Evaluate("x", Select(DISJOINT).timeout, inputBytes, DISJOINT.governance, NO_OVERRIDES, Some("p"), Some("c")) == BadModel
  {
    hide Id, LowerList, CleanList, Enabled, AllEligible, Usable, ApprovedModels, Order, Healthy, Affordable;
    DisjointParts();
    OneName("c");
    OneName("p");
    OneName("x");
    OrderIsExact(DISJOINT);
    assert LowerList([]) == [] by {
      EmptyList();
    }
    assert Qualifies(DISJOINT, "p") && "p" in Order(DISJOINT);
    assert Common(["a"][..0], ["b"]) == [] && Common(["a"], ["b"]) == [];
    assert ModelsFor(DISJOINT, "p") == ["c"];
    assert CleanList([]) == [] by {
      NothingListed();
    }
    EachSelectedProviderIsServed(DISJOINT, "p");
    assert Emits(DISJOINT, "p", "c");
    assert DISJOINT.governance.approvedModels[0].0 == "p";
    assert NormalKeys(DISJOINT.governance.approvedModels);
    NormalKeysAgree(DISJOINT.governance.approvedModels, 1, "p");
    SelectionIsAllowedIff(DISJOINT, "p", "c", "x", inputBytes);
  }

  lemma NothingListed()
    ensures CleanList([]) == []
  {
  }
}

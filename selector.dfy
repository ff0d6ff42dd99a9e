/** The provider/model picker of app/components/chat/ModelSelector.tsx: two searchable
    dropdowns (provider, then the selected provider's models) with keyboard navigation,
    an optional "free models only" toggle, and a repair of the selection when the selected
    provider disappears from the enabled list. The host owns the selected provider and
    model; this model applies the host's setters at once when they are supplied. */
module Selector {
  import opened Wrappers
  import opened Text
  import opened Seqs

  datatype ProviderInfo = ProviderInfo(name: string)

  datatype ModelInfo = ModelInfo(name: string, displayLabel: string, provider: string)

  const OPEN_ROUTER := "OpenRouter"

  function ProviderName(p: Option<ProviderInfo>): Option<string>
  {
    if p.Some? then Some(p.value.name) else None
  }

  /** `isModelLikelyFree(model, providerName)`. */
  predicate IsModelLikelyFree(m: ModelInfo, providerName: Option<string>)
  {
    || (providerName == Some(OPEN_ROUTER) && Contains(m.displayLabel, "in:$0.00") && Contains(m.displayLabel, "out:$0.00"))
    || Contains(ToLower(m.name), "free")
    || Contains(ToLower(m.displayLabel), "free")
  }

  /** "free" anywhere in the name or label marks a model free for every provider; without
      such a marker only an OpenRouter price label can. */
  lemma {:induction false} FreeMarkers(m: ModelInfo, providerName: Option<string>)
    ensures Contains(m.name, "free") || Contains(m.displayLabel, "free") ==> IsModelLikelyFree(m, providerName)
    ensures IsModelLikelyFree(m, providerName) && providerName != Some(OPEN_ROUTER) ==>
      Contains(ToLower(m.name), "free") || Contains(ToLower(m.displayLabel), "free")
  {
    assert IsLower("free");
    if Contains(m.name, "free") {
      ContainsLowered(m.name, "free");
    }
    if Contains(m.displayLabel, "free") {
      ContainsLowered(m.displayLabel, "free");
    }
  }

  /** A model offered in the model dropdown: it belongs to the selected provider, has a
      name, passes the free toggle, and contains the query in its label or name, ignoring case. */
  predicate ModelMatches(m: ModelInfo, provider: Option<ProviderInfo>, freeOnly: bool, query: string)
  {
    && provider.Some? && m.provider == provider.value.name && m.name != ""
    && (!freeOnly || IsModelLikelyFree(m, ProviderName(provider)))
    && (Contains(ToLower(m.displayLabel), ToLower(query)) || Contains(ToLower(m.name), ToLower(query)))
  }

  /** `filteredModels`. */
  function FilteredModels(modelList: seq<ModelInfo>, provider: Option<ProviderInfo>, freeOnly: bool, query: string)
    : seq<ModelInfo>
  {
    Filter(modelList, m => ModelMatches(m, provider, freeOnly, query))
  }

  /** The rendered models are exactly the matching ones, in list order and as often as
      listed; with no provider
      selected there are none. */
  lemma FilteredModelsSpec(modelList: seq<ModelInfo>, provider: Option<ProviderInfo>, freeOnly: bool, query: string)
    ensures var r := FilteredModels(modelList, provider, freeOnly, query);
      && IsSubsequence(r, modelList)
      && (forall i :: 0 <= i < |r| ==> ModelMatches(r[i], provider, freeOnly, query) && r[i] in modelList)
      && (forall i :: 0 <= i < |modelList| && ModelMatches(modelList[i], provider, freeOnly, query) ==> modelList[i] in r)
      && (forall m :: ModelMatches(m, provider, freeOnly, query) ==> multiset(r)[m] == multiset(modelList)[m])
      && (provider.None? ==> r == [])
  {
    var keep := m => ModelMatches(m, provider, freeOnly, query);
    FilterSubsequence(modelList, keep);
    FilterSound(modelList, keep);
    FilterComplete(modelList, keep);
    forall m | ModelMatches(m, provider, freeOnly, query)
      ensures multiset(Filter(modelList, keep))[m] == multiset(modelList)[m]
    {
      FilterKeepsCount(modelList, keep, m);
    }
    if provider.None? {
      FilterNone(modelList, keep);
    }
  }

  /** A provider offered in the provider dropdown. */
  predicate ProviderMatches(p: ProviderInfo, query: string)
  {
    Contains(ToLower(p.name), ToLower(query))
  }

  /** `filteredProviders`. */
  function FilteredProviders(providerList: seq<ProviderInfo>, query: string): seq<ProviderInfo>
  {
    Filter(providerList, p => ProviderMatches(p, query))
  }

  /** The rendered providers are exactly the matching ones, in list order and as often as
      listed; the empty query
      shows them all. */
  lemma FilteredProvidersSpec(providerList: seq<ProviderInfo>, query: string)
    ensures var r := FilteredProviders(providerList, query);
      && IsSubsequence(r, providerList)
      && (forall i :: 0 <= i < |r| ==> ProviderMatches(r[i], query) && r[i] in providerList)
      && (forall i :: 0 <= i < |providerList| && ProviderMatches(providerList[i], query) ==> providerList[i] in r)
      && (forall p :: ProviderMatches(p, query) ==> multiset(r)[p] == multiset(providerList)[p])
      && (query == "" ==> r == providerList)
  {
    var keep := p => ProviderMatches(p, query);
    FilterSubsequence(providerList, keep);
    FilterSound(providerList, keep);
    FilterComplete(providerList, keep);
    forall p | ProviderMatches(p, query)
      ensures multiset(Filter(providerList, keep))[p] == multiset(providerList)[p]
    {
      FilterKeepsCount(providerList, keep, p);
    }
    if query == "" {
      assert ToLower(query) == "";
      forall i | 0 <= i < |providerList| ensures keep(providerList[i]) {
        assert StartsWith(ToLower(providerList[i].name), "");
      }
      FilterAll(providerList, keep);
    }
  }

  /** Searching "gpt" with OpenAI selected, over gpt-4 (OpenAI) and claude-3 (Anthropic),
      keeps gpt-4 only. */
  lemma GptScenario()
    ensures var gpt := ModelInfo("gpt-4", "GPT-4", "OpenAI");
      var claude := ModelInfo("claude-3", "Claude 3", "Anthropic");
      FilteredModels([gpt, claude], Some(ProviderInfo("OpenAI")), false, "gpt") == [gpt]
  {
    var gpt := ModelInfo("gpt-4", "GPT-4", "OpenAI");
    var claude := ModelInfo("claude-3", "Claude 3", "Anthropic");
    assert ToLower("gpt") == "gpt";
    assert StartsWith(ToLower(gpt.name), "gpt");
    assert ModelMatches(gpt, Some(ProviderInfo("OpenAI")), false, "gpt");
    assert !ModelMatches(claude, Some(ProviderInfo("OpenAI")), false, "gpt");
    assert [gpt, claude][1..] == [claude];
  }

  /** ArrowDown: the next index, wrapping from the last (or beyond) to the first. */
  function NextIndex(prev: int, n: nat): (r: int)
    ensures n > 0 && -1 <= prev < n ==> 0 <= r < n
    ensures prev >= n - 1 ==> r == 0
    ensures -1 <= prev < n - 1 ==> r == prev + 1
  {
    if prev + 1 >= n then 0 else prev + 1
  }

  /** ArrowUp: the previous index, wrapping from the first (or none) to the last. */
  function PrevIndex(prev: int, n: nat): (r: int)
    ensures n > 0 && -1 <= prev < n ==> 0 <= r < n
    ensures prev <= 0 ==> r == n - 1
    ensures n == 0 && prev <= 0 ==> r == -1
    ensures 0 < prev ==> r == prev - 1
  {
    if prev - 1 < 0 then n - 1 else prev - 1
  }

  /** `modelList.find((m) => m.provider === name)`: the first model of the provider in the
      unfiltered list, if any. */
  function FirstModelOf(modelList: seq<ModelInfo>, name: string): (r: Option<ModelInfo>)
    ensures r.None? <==> forall i :: 0 <= i < |modelList| ==> modelList[i].provider != name
    ensures r.Some? ==> exists i :: 0 <= i < |modelList| && modelList[i] == r.value && r.value.provider == name &&
                                    forall j :: 0 <= j < i ==> modelList[j].provider != name
    decreases |modelList|
  {
    if modelList == [] then None
    else if modelList[0].provider == name then Some(modelList[0])
    else
      var r := FirstModelOf(modelList[1..], name);
      assert r.Some? ==> exists i :: 0 <= i < |modelList| && modelList[i] == r.value && r.value.provider == name &&
                                     forall j :: 0 <= j < i ==> modelList[j].provider != name by {
        if r.Some? {
          var i :| 0 <= i < |modelList[1..]| && modelList[1..][i] == r.value && r.value.provider == name &&
                   forall j :: 0 <= j < i ==> modelList[1..][j].provider != name;
          assert modelList[i + 1] == r.value;
          assert forall j :: 0 <= j < i + 1 ==> modelList[j].provider != name by {
            forall j | 0 <= j < i + 1 ensures modelList[j].provider != name {
              if j > 0 { assert modelList[j] == modelList[1..][j - 1]; }
            }
          }
        }
      }
      assert r.None? ==> forall i :: 0 <= i < |modelList| ==> modelList[i].provider != name by {
        if r.None? {
          forall i | 0 <= i < |modelList| ensures modelList[i].provider != name {
            if i > 0 { assert modelList[i] == modelList[1..][i - 1]; }
          }
        }
      }
      r
  }

  /** The model chosen after committing provider p: the provider's first model when there
      is one and a model setter, else the current model. */
  function CascadeModel(modelList: seq<ModelInfo>, p: ProviderInfo, current: Option<string>, canSetModel: bool)
    : (r: Option<string>)
    ensures canSetModel && FirstModelOf(modelList, p.name).Some? ==>
              r == Some(FirstModelOf(modelList, p.name).value.name)
    ensures !canSetModel || FirstModelOf(modelList, p.name).None? ==> r == current
  {
    var fm := FirstModelOf(modelList, p.name);
    if fm.Some? && canSetModel then Some(fm.value.name) else current
  }

  predicate InList(name: string, providerList: seq<ProviderInfo>)
  {
    exists i :: 0 <= i < |providerList| && providerList[i].name == name
  }

  datatype Selection = Selection(provider: Option<ProviderInfo>, model: Option<string>)

  /** The self-heal effect: when providers are enabled and the selected provider is not
      among them, select the first enabled provider (if there is a provider setter) and its
      first model (if there is a model setter). */
  function Healed(sel: Selection, providerList: seq<ProviderInfo>, modelList: seq<ModelInfo>,
                  canSetProvider: bool, canSetModel: bool): (r: Selection)
    ensures providerList == [] || sel.provider.None? || InList(sel.provider.value.name, providerList) ==> r == sel
    ensures canSetProvider && providerList != [] && r.provider.Some? ==> InList(r.provider.value.name, providerList)
    ensures r != sel ==> providerList != [] && sel.provider.Some? && !InList(sel.provider.value.name, providerList)
  {
    if providerList == [] || sel.provider.None? || InList(sel.provider.value.name, providerList) then sel
    else
      var first := providerList[0];
      assert providerList[0].name == first.name;
      Selection(if canSetProvider then Some(first) else sel.provider,
                CascadeModel(modelList, first, sel.model, canSetModel))
  }

  /** Running the repair again with the same inputs changes nothing. */
  lemma HealedIdempotent(sel: Selection, providerList: seq<ProviderInfo>, modelList: seq<ModelInfo>,
                         canSetProvider: bool, canSetModel: bool)
    ensures var once := Healed(sel, providerList, modelList, canSetProvider, canSetModel);
      Healed(once, providerList, modelList, canSetProvider, canSetModel) == once
  {
  }

  /** A selected provider missing from a non-empty enabled list, with both setters: the
      first enabled provider and its first model are selected, or the model is left as it
      was when that provider has none. */
  lemma HealScenario(sel: Selection, providerList: seq<ProviderInfo>, modelList: seq<ModelInfo>)
    requires providerList != [] && sel.provider.Some? && !InList(sel.provider.value.name, providerList)
    ensures var r := Healed(sel, providerList, modelList, true, true);
      && r.provider == Some(providerList[0])
      && (FirstModelOf(modelList, providerList[0].name).None? ==> r.model == sel.model)
      && (FirstModelOf(modelList, providerList[0].name).Some? ==>
            r.model == Some(FirstModelOf(modelList, providerList[0].name).value.name))
  {
  }

  /** A key reaching a dropdown's key handler. */
  datatype Key = ArrowDown | ArrowUp | Enter | Escape | Tab(shift: bool) | OtherKey

  /** The three state cells a dropdown box keeps: open flag, search query, focused index. */
  datatype Box = Box(open: bool, query: string, focus: int)

  /** Between events a box never focuses below -1, and a closed box focuses nothing. */
  predicate BoxValid(b: Box)
  {
    -1 <= b.focus && (!b.open ==> b.focus == -1)
  }

  /** What a key does to a box over n rendered options: the box afterwards, and the index
      of the option it commits, if any. */
  datatype KeyOutcome = KeyOutcome(box: Box, commit: Option<int>)

  /** The shared switch of `handleModelKeyDown` and `handleProviderKeyDown`. */
  function KeyStep(b: Box, key: Key, n: nat): (r: KeyOutcome)
    ensures !b.open || key == OtherKey ==> r == KeyOutcome(b, None)
    ensures r.commit.Some? <==> b.open && key == Enter && 0 <= b.focus < n
    ensures r.commit.Some? ==> r.commit.value == b.focus && !r.box.open && r.box.query == ""
    ensures b.open && key == Enter && r.commit.None? ==> r.box == b
    ensures b.open && key == Escape ==> !r.box.open && r.box.query == ""
    ensures b.open && key.Tab? ==> r.box.query == b.query && r.box.focus == b.focus &&
                                   (r.box.open <==> key.shift || b.focus != n - 1)
    ensures b.open && key == ArrowDown ==> r.box == b.(focus := NextIndex(b.focus, n)) && r.commit.None?
    ensures b.open && key == ArrowUp ==> r.box == b.(focus := PrevIndex(b.focus, n)) && r.commit.None?
    ensures BoxValid(b) && b.open && n > 0 && b.focus < n && (key == ArrowDown || key == ArrowUp) ==>
              0 <= r.box.focus < n
    ensures BoxValid(b) ==> -1 <= r.box.focus
    ensures r.box.query == b.query || r.box.query == ""
  {
    if !b.open then KeyOutcome(b, None)
    else match key
      case ArrowDown => KeyOutcome(b.(focus := NextIndex(b.focus, n)), None)
      case ArrowUp => KeyOutcome(b.(focus := PrevIndex(b.focus, n)), None)
      case Enter =>
        if 0 <= b.focus < n then KeyOutcome(b.(open := false, query := ""), Some(b.focus))
        else KeyOutcome(b, None)
      case Escape => KeyOutcome(b.(open := false, query := ""), None)
      case Tab(shift) =>
        if !shift && b.focus == n - 1 then KeyOutcome(b.(open := false), None) else KeyOutcome(b, None)
      case OtherKey => KeyOutcome(b, None)
  }

  /** The focus-reset effect: a box whose open flag or query changed loses its focus. */
  function Settle(before: Box, after: Box): (r: Box)
    ensures r.open == after.open && r.query == after.query
    ensures after.open != before.open || after.query != before.query ==> r.focus == -1
    ensures after.open == before.open && after.query == before.query ==> r == after
    ensures BoxValid(before) && -1 <= after.focus && (!before.open ==> after == before) ==> BoxValid(r)
  {
    if after.open != before.open || after.query != before.query then after.(focus := -1) else after
  }

  /** On a focused option of an open box, ArrowDown then ArrowUp (or the reverse) comes back
      to it, wrapping at either end. */
  lemma {:induction false} ArrowsInverse(b: Box, n: nat)
    requires b.open && 0 <= b.focus < n
    ensures KeyStep(KeyStep(b, ArrowDown, n).box, ArrowUp, n).box == b
    ensures KeyStep(KeyStep(b, ArrowUp, n).box, ArrowDown, n).box == b
  {
  }

  /** Where a mouse button went down. */
  datatype Target = InModelBox | InProviderBox | Elsewhere

  class ModelSelector {
    // Props from the host.
    var provider: Option<ProviderInfo>
    var model: Option<string>
    var modelList: seq<ModelInfo>
    var providerList: seq<ProviderInfo>
    const canSetProvider: bool
    const canSetModel: bool
    // The component's own state cells.
    var modelQuery: string
    var modelOpen: bool
    var modelFocus: int
    var providerQuery: string
    var providerOpen: bool
    var providerFocus: int
    var showFreeOnly: bool

    /** Between events: both boxes valid and the selection healthy. */
    ghost predicate Valid()
      reads this
    {
      BoxValid(ModelBox()) && BoxValid(ProviderBox()) && Healthy()
    }

    /** With a provider setter and a non-empty enabled list, the selected provider, if any,
        is in that list. */
    predicate Healthy()
      reads this
    {
      canSetProvider && providerList != [] && provider.Some? ==> InList(provider.value.name, providerList)
    }

    function ModelBox(): Box
      reads this
    {
      Box(modelOpen, modelQuery, modelFocus)
    }

    function ProviderBox(): Box
      reads this
    {
      Box(providerOpen, providerQuery, providerFocus)
    }

    /** The models rendered in the model box. */
    function ModelCandidates(): seq<ModelInfo>
      reads this
    {
      FilteredModels(modelList, provider, showFreeOnly, modelQuery)
    }

    /** The providers rendered in the provider box. */
    function ProviderCandidates(): seq<ProviderInfo>
      reads this
    {
      FilteredProviders(providerList, providerQuery)
    }

    /** Mount: both boxes closed and empty, the toggle off, then the repair effect. */
    constructor (provider: Option<ProviderInfo>, model: Option<string>, modelList: seq<ModelInfo>,
                 providerList: seq<ProviderInfo>, canSetProvider: bool, canSetModel: bool)
      ensures Valid()
      ensures Selection(this.provider, this.model) ==
              Healed(Selection(provider, model), providerList, modelList, canSetProvider, canSetModel)
      ensures this.modelList == modelList && this.providerList == providerList
      ensures this.canSetProvider == canSetProvider && this.canSetModel == canSetModel
      ensures ModelBox() == Box(false, "", -1) && ProviderBox() == Box(false, "", -1)
      ensures !showFreeOnly
    {
      var healed := Healed(Selection(provider, model), providerList, modelList, canSetProvider, canSetModel);
      this.provider := healed.provider;
      this.model := healed.model;
      this.modelList := modelList;
      this.providerList := providerList;
      this.canSetProvider := canSetProvider;
      this.canSetModel := canSetModel;
      modelOpen, modelQuery, modelFocus := false, "", -1;
      providerOpen, providerQuery, providerFocus := false, "", -1;
      showFreeOnly := false;
    }

    /** Sets the model box's cells to b, then runs its focus-reset effect. */
    method SetModelBox(b: Box)
      modifies this`modelOpen, this`modelQuery, this`modelFocus
      ensures ModelBox() == Settle(old(ModelBox()), b)
    {
      var settled := Settle(ModelBox(), b);
      modelOpen, modelQuery, modelFocus := settled.open, settled.query, settled.focus;
    }

    /** Sets the provider box's cells to b, then runs its focus-reset effect. */
    method SetProviderBox(b: Box)
      modifies this`providerOpen, this`providerQuery, this`providerFocus
      ensures ProviderBox() == Settle(old(ProviderBox()), b)
    {
      var settled := Settle(ProviderBox(), b);
      providerOpen, providerQuery, providerFocus := settled.open, settled.query, settled.focus;
    }

    /** The effect keyed on the provider's name: a new name turns the free toggle off, and
        the toggle is in turn a dependency of the model box's focus reset. */
    method ProviderNameEffect(before: Option<string>)
      modifies this`showFreeOnly, this`modelFocus
      ensures showFreeOnly == (ProviderName(provider) == before && old(showFreeOnly))
      ensures modelFocus == if showFreeOnly != old(showFreeOnly) then -1 else old(modelFocus)
    {
      if ProviderName(provider) != before && showFreeOnly {
        showFreeOnly := false;
        modelFocus := -1;
      }
    }

    /** The host re-renders the component with new props; the repair runs when the provider
        or either list changed. */
    method ReceiveProps(newProvider: Option<ProviderInfo>, newModel: Option<string>,
                        newModelList: seq<ModelInfo>, newProviderList: seq<ProviderInfo>)
      requires Valid()
      modifies this`provider, this`model, this`modelList, this`providerList, this`showFreeOnly, this`modelFocus
      ensures Healthy()
      ensures BoxValid(ModelBox()) && BoxValid(ProviderBox())
      ensures Valid()
      ensures modelList == newModelList && providerList == newProviderList
      ensures var changed := newProvider != old(provider) || newModelList != old(modelList) ||
                             newProviderList != old(providerList);
        Selection(provider, model) ==
          if changed then Healed(Selection(newProvider, newModel), newProviderList, newModelList, canSetProvider, canSetModel)
          else Selection(newProvider, newModel)
      ensures showFreeOnly == (old(showFreeOnly) && ProviderName(newProvider) == old(ProviderName(provider)) &&
                               ProviderName(provider) == ProviderName(newProvider))
      ensures modelFocus == if showFreeOnly != old(showFreeOnly) then -1 else old(modelFocus)
    {
      var before := ProviderName(provider);
      var changed := newProvider != provider || newModelList != modelList || newProviderList != providerList;
      var received := Selection(newProvider, newModel);
      var sel := if changed then Healed(received, newProviderList, newModelList, canSetProvider, canSetModel)
                 else received;
      modelList, providerList := newModelList, newProviderList;
      provider, model := newProvider, newModel;
      // The render with the new props runs the name effect; a repair that changes the
      // provider causes one more render, which runs it again.
      ProviderNameEffect(before);
      provider, model := sel.provider, sel.model;
      ProviderNameEffect(ProviderName(newProvider));
    }

    /** The selection after committing provider p over a previous selection: with a provider
        setter, p and the cascaded model; without one, nothing changes. */
    predicate Committed(p: ProviderInfo, previousProvider: Option<ProviderInfo>, previousModel: Option<string>)
      reads this
    {
      && (canSetProvider ==> provider == Some(p) && model == CascadeModel(modelList, p, previousModel, canSetModel))
      && (!canSetProvider ==> provider == previousProvider && model == previousModel)
    }

    /** Commits a rendered provider, then runs the effect keyed on the provider's name. */
    method CommitProvider(p: ProviderInfo)
      requires Healthy() && p in ProviderCandidates()
      modifies this`provider, this`model, this`showFreeOnly, this`modelFocus
      ensures Healthy()
      ensures Committed(p, old(provider), old(model))
      ensures showFreeOnly == (ProviderName(provider) == old(ProviderName(provider)) && old(showFreeOnly))
      ensures modelFocus == if showFreeOnly != old(showFreeOnly) then -1 else old(modelFocus)
    {
      OfferedIsListed(p, providerList, providerQuery);
      var before := ProviderName(provider);
      if canSetProvider {
        provider := Some(p);
        model := CascadeModel(modelList, p, model, canSetModel);
      }
      ProviderNameEffect(before);
    }

    /** Clicking the model box's trigger, or Enter/Space on it, flips the open flag. */
    method ToggleModelOpen()
      requires Valid()
      modifies this`modelOpen, this`modelQuery, this`modelFocus
      ensures Valid()
      ensures ModelBox() == Box(!old(modelOpen), old(modelQuery), -1)
    {
      SetModelBox(ModelBox().(open := !modelOpen));
    }

    /** Clicking the provider box's trigger, or Enter/Space on it, flips the open flag. */
    method ToggleProviderOpen()
      requires Valid()
      modifies this`providerOpen, this`providerQuery, this`providerFocus
      ensures Valid()
      ensures ProviderBox() == Box(!old(providerOpen), old(providerQuery), -1)
    {
      SetProviderBox(ProviderBox().(open := !providerOpen));
    }

    /** Typing in the model search box (rendered only while the box is open). */
    method TypeModelQuery(q: string)
      requires Valid() && modelOpen
      modifies this`modelOpen, this`modelQuery, this`modelFocus
      ensures Valid()
      ensures ModelBox() == Box(true, q, if q != old(modelQuery) then -1 else old(modelFocus))
    {
      SetModelBox(ModelBox().(query := q));
    }

    /** Typing in the provider search box (rendered only while the box is open). */
    method TypeProviderQuery(q: string)
      requires Valid() && providerOpen
      modifies this`providerOpen, this`providerQuery, this`providerFocus
      ensures Valid()
      ensures ProviderBox() == Box(true, q, if q != old(providerQuery) then -1 else old(providerFocus))
    {
      SetProviderBox(ProviderBox().(query := q));
    }

    /** The "Free models only" button, shown in the open model box for OpenRouter only; the
        toggle is a dependency of the model box's focus reset. */
    method ToggleFreeOnly()
      requires Valid() && modelOpen && ProviderName(provider) == Some(OPEN_ROUTER)
      modifies this`showFreeOnly, this`modelFocus
      ensures Valid()
      ensures showFreeOnly == !old(showFreeOnly) && modelFocus == -1
    {
      showFreeOnly := !showFreeOnly;
      modelFocus := -1;
    }

    /** The document `mousedown` listener: each box the press is outside of closes and
        forgets its query; with no providers enabled neither box is rendered, so nothing
        closes. */
    method MouseDown(target: Target)
      requires Valid()
      modifies this`modelOpen, this`modelQuery, this`modelFocus, this`providerOpen, this`providerQuery,
               this`providerFocus
      ensures Valid()
      ensures providerList == [] || target == InModelBox ==> ModelBox() == old(ModelBox())
      ensures providerList == [] || target == InProviderBox ==> ProviderBox() == old(ProviderBox())
      ensures providerList != [] && target != InModelBox ==> ModelBox() == Box(false, "", -1)
      ensures providerList != [] && target != InProviderBox ==> ProviderBox() == Box(false, "", -1)
    {
      if providerList != [] {
        if target != InModelBox {
          SetModelBox(Box(false, "", modelFocus));
        }
        if target != InProviderBox {
          SetProviderBox(Box(false, "", providerFocus));
        }
      }
    }

    /** `handleModelKeyDown`: the key's step over the rendered models, a commit of the
        focused model through the setter, and the focus-reset effect. */
    method ModelKeyDown(key: Key)
      requires Valid()
      modifies this`model, this`modelOpen, this`modelQuery, this`modelFocus
      ensures Valid()
      ensures var candidates := old(ModelCandidates());
        var out := KeyStep(old(ModelBox()), key, |candidates|);
        && ModelBox() == Settle(old(ModelBox()), out.box)
        && model == if out.commit.Some? && canSetModel then Some(candidates[out.commit.value].name) else old(model)
    {
      var candidates := ModelCandidates();
      var out := KeyStep(ModelBox(), key, |candidates|);
      if out.commit.Some? && canSetModel {
        model := Some(candidates[out.commit.value].name);
      }
      SetModelBox(out.box);
    }

    /** `handleProviderKeyDown`: the key's step over the rendered providers, a commit of the
        focused provider, and the effects. */
    method ProviderKeyDown(key: Key)
      requires Valid()
      modifies this`provider, this`model, this`providerOpen, this`providerQuery, this`providerFocus,
               this`showFreeOnly, this`modelFocus
      ensures Valid()
      ensures var candidates := old(ProviderCandidates());
        var out := KeyStep(old(ProviderBox()), key, |candidates|);
        && ProviderBox() == Settle(old(ProviderBox()), out.box)
        && (out.commit.Some? ==> Committed(candidates[out.commit.value], old(provider), old(model)))
        && (out.commit.None? ==> provider == old(provider) && model == old(model))
      ensures showFreeOnly == (ProviderName(provider) == old(ProviderName(provider)) && old(showFreeOnly))
      ensures modelFocus == if showFreeOnly != old(showFreeOnly) then -1 else old(modelFocus)
    {
      var candidates := ProviderCandidates();
      var out := KeyStep(ProviderBox(), key, |candidates|);
      if out.commit.Some? {
        CommitProvider(candidates[out.commit.value]);
      }
      SetProviderBox(out.box);
    }

    /** Clicking a rendered model option. */
    method ClickModelOption(i: int)
      requires Valid() && modelOpen && 0 <= i < |ModelCandidates()|
      modifies this`model, this`modelOpen, this`modelQuery, this`modelFocus
      ensures Valid()
      ensures model == if canSetModel then Some(old(ModelCandidates())[i].name) else old(model)
      ensures ModelBox() == Box(false, "", -1)
    {
      var chosen := ModelCandidates()[i];
      if canSetModel {
        model := Some(chosen.name);
      }
      SetModelBox(Box(false, "", modelFocus));
    }

    /** Clicking a rendered provider option. */
    method ClickProviderOption(i: int)
      requires Valid() && providerOpen && 0 <= i < |ProviderCandidates()|
      modifies this`provider, this`model, this`providerOpen, this`providerQuery, this`providerFocus,
               this`showFreeOnly, this`modelFocus
      ensures Valid()
      ensures Committed(old(ProviderCandidates())[i], old(provider), old(model))
      ensures ProviderBox() == Box(false, "", -1)
      ensures showFreeOnly == (ProviderName(provider) == old(ProviderName(provider)) && old(showFreeOnly))
      ensures modelFocus == if showFreeOnly != old(showFreeOnly) then -1 else old(modelFocus)
    {
      CommitProvider(ProviderCandidates()[i]);
      SetProviderBox(Box(false, "", providerFocus));
    }
  }

  /** A provider offered in the provider box has its name in the enabled list. */
  lemma OfferedIsListed(p: ProviderInfo, providerList: seq<ProviderInfo>, query: string)
    requires p in FilteredProviders(providerList, query)
    ensures InList(p.name, providerList)
  {
    FilteredProvidersSpec(providerList, query);
    var i :| 0 <= i < |FilteredProviders(providerList, query)| && FilteredProviders(providerList, query)[i] == p;
    InListOf(p, providerList);
  }

  /** A provider taken from the list has its name in the list. */
  lemma InListOf(p: ProviderInfo, providerList: seq<ProviderInfo>)
    requires p in providerList
    ensures InList(p.name, providerList)
  {
    var i :| 0 <= i < |providerList| && providerList[i] == p;
    assert providerList[i].name == p.name;
  }
}

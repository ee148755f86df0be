/** The heuristic model selector of app/model_selector.py: the provider ->
    model catalogue is flattened into one name-keyed registry, and a query is
    routed to the registry entry with the best keyword and priority score. */
module ModelSelector {
  import opened Outcomes
  import opened Text

  /** A model's settings as written under its provider in the configuration;
      `description` and `use_case` may be absent. */
  datatype ModelDetails = ModelDetails(
    contextWindow: Option<int>,
    description: Option<string>,
    useCase: Option<seq<string>>)

  /** The parsed configuration: providers in file order, each with its models
      in file order. */
  type Catalogue = seq<(string, seq<(string, ModelDetails)>)>

  /** One (provider, model) pair of the catalogue. */
  datatype Entry = Entry(provider: string, name: string, details: ModelDetails)

  datatype ModelCapabilities = ModelCapabilities(
    contextWindow: int,
    description: string,
    useCase: seq<string>)

  /** A Python dict from model name to capabilities: the keys in insertion
      order, and the mapping itself. */
  datatype Registry = Registry(order: seq<string>, entries: map<string, ModelCapabilities>)

  predicate Distinct(names: seq<string>)
  {
    forall i, j :: 0 <= i < j < |names| ==> names[i] != names[j]
  }

  predicate ValidRegistry(r: Registry)
  {
    Distinct(r.order) && r.entries.Keys == set n | n in r.order
  }

  /** `details['context_window']` raised KeyError for this model. */
  datatype ConfigError = MissingContextWindow(provider: string, model: string)

  // ---------------------------------------------------------------------
  // Building the registry (_process_models)
  // ---------------------------------------------------------------------

  function ProviderEntries(provider: string, models: seq<(string, ModelDetails)>): (es: seq<Entry>)
    ensures |es| == |models|
    ensures forall k :: 0 <= k < |models| ==> es[k] == Entry(provider, models[k].0, models[k].1)
  {
    if models == [] then []
    else ProviderEntries(provider, models[..|models| - 1]) + [Entry(provider, models[|models| - 1].0, models[|models| - 1].1)]
  }

  /** Every (provider, model) pair, providers first, in configuration order. */
  function Flatten(config: Catalogue): seq<Entry>
  {
    if config == [] then []
    else Flatten(config[..|config| - 1]) + ProviderEntries(config[|config| - 1].0, config[|config| - 1].1)
  }

  lemma {:induction false} FlattenAppend(a: Catalogue, b: Catalogue)
    ensures Flatten(a + b) == Flatten(a) + Flatten(b)
    decreases |b|
  {
    if b != [] {
      var last := b[|b| - 1];
      assert (a + b)[..|a + b| - 1] == a + b[..|b| - 1];
      FlattenAppend(a, b[..|b| - 1]);
    } else {
      assert a + b == a;
    }
  }

  /** The capabilities recorded for a model whose context window is present. */
  function Capabilities(d: ModelDetails): (c: ModelCapabilities)
    requires d.contextWindow.Some?
    ensures c.contextWindow == d.contextWindow.value
    ensures d.description.Some? ==> c.description == d.description.value
    ensures d.description.None? ==> c.description == ""
    ensures d.useCase.Some? ==> c.useCase == d.useCase.value
    ensures d.useCase.None? ==> c.useCase == []
  {
    ModelCapabilities(d.contextWindow.value, GetOr(d.description, ""), GetOr(d.useCase, []))
  }

  /** `processed[name] = caps`: a new key goes to the end of the order, an
      existing key keeps its position and gets the new value. */
  function Insert(r: Registry, name: string, caps: ModelCapabilities): (r': Registry)
    requires ValidRegistry(r)
    ensures ValidRegistry(r')
    ensures r'.entries == r.entries[name := caps]
    ensures name in r.entries ==> r'.order == r.order
    ensures name !in r.entries ==> r'.order == r.order + [name]
  {
    if name in r.entries then Registry(r.order, r.entries[name := caps])
    else Registry(r.order + [name], r.entries[name := caps])
  }

  const EmptyRegistry := Registry([], map[])

  /** The result of processing the pairs `es` in order: the registry, or the
      KeyError raised at the first pair without a context window. */
  function Processed(es: seq<Entry>): (r: Result<Registry, ConfigError>)
    ensures r.Ok? ==> ValidRegistry(r.value)
  {
    if es == [] then Ok(EmptyRegistry)
    else
      match Processed(es[..|es| - 1])
      case Err(e) => Err(e)
      case Ok(reg) =>
        var last := es[|es| - 1];
        if last.details.contextWindow.None? then Err(MissingContextWindow(last.provider, last.name))
        else Ok(Insert(reg, last.name, Capabilities(last.details)))
  }

  /** Once a KeyError is raised, later pairs do not matter. */
  lemma {:induction false} ProcessedErrSticky(es: seq<Entry>, more: seq<Entry>)
    requires Processed(es).Err?
    ensures Processed(es + more) == Processed(es)
    decreases |more|
  {
    if more != [] {
      assert (es + more)[..|es + more| - 1] == es + more[..|more| - 1];
      ProcessedErrSticky(es, more[..|more| - 1]);
    } else {
      assert es + more == es;
    }
  }

  lemma ProviderEntriesSplit(p: string, m: seq<(string, ModelDetails)>, j: nat)
    requires j <= |m|
    ensures ProviderEntries(p, m) == ProviderEntries(p, m[..j]) + ProviderEntries(p, m[j..])
  {
    var whole, left, right := ProviderEntries(p, m), ProviderEntries(p, m[..j]), ProviderEntries(p, m[j..]);
    forall k | 0 <= k < |m| ensures whole[k] == (left + right)[k] {
      if k >= j {
        assert right[k - j] == Entry(p, m[k].0, m[k].1);
      }
    }
  }

  /** One more model of the current provider adds one pair at the end. */
  lemma ProviderEntriesStep(prefix: seq<Entry>, provider: string, models: seq<(string, ModelDetails)>, j: nat)
    requires j < |models|
    ensures prefix + ProviderEntries(provider, models[..j + 1])
         == (prefix + ProviderEntries(provider, models[..j])) + [Entry(provider, models[j].0, models[j].1)]
  {
    assert models[..j + 1][..j] == models[..j];
  }

  /** Processing one more pair: an earlier KeyError stands, a pair without
      a context window raises one, any other pair is inserted. */
  lemma ProcessedSnoc(es: seq<Entry>, e: Entry)
    ensures Processed(es).Err? ==> Processed(es + [e]) == Processed(es)
    ensures Processed(es).Ok? && e.details.contextWindow.None? ==>
      Processed(es + [e]) == Err(MissingContextWindow(e.provider, e.name))
    ensures Processed(es).Ok? && e.details.contextWindow.Some? ==>
      Processed(es + [e]) == Ok(Insert(Processed(es).value, e.name, Capabilities(e.details)))
  {
    assert (es + [e])[..|es + [e]| - 1] == es;
  }

  /** One more provider appends all of its pairs. */
  lemma FlattenStep(config: Catalogue, i: nat)
    requires i < |config|
    ensures Flatten(config[..i + 1]) == Flatten(config[..i]) + ProviderEntries(config[i].0, config[i].1)
  {
    assert config[..i + 1][..i] == config[..i];
  }

  /** The same, with the later pairs grouped. */
  lemma ProcessedErrAppend(a: seq<Entry>, b: seq<Entry>, c: seq<Entry>)
    requires Processed(a + b).Err?
    ensures Processed(a + (b + c)) == Processed(a + b)
  {
    assert a + (b + c) == (a + b) + c;
    ProcessedErrSticky(a + b, c);
  }

  /** A KeyError raised among a provider's first `j` models is the result
      for all of its models. */
  lemma ProviderErrorStands(before: seq<Entry>, provider: string, models: seq<(string, ModelDetails)>, j: nat)
    requires j <= |models|
    requires Processed(before + ProviderEntries(provider, models[..j])).Err?
    ensures Processed(before + ProviderEntries(provider, models)) == Processed(before + ProviderEntries(provider, models[..j]))
  {
    ProviderEntriesSplit(provider, models, j);
    ProcessedErrAppend(before, ProviderEntries(provider, models[..j]), ProviderEntries(provider, models[j..]));
  }

  /** The inner loop of ModelSelector._process_models: the models of one
      provider are added to the registry built from the pairs `before`. */
  method ProcessProvider(processed: Registry, ghost before: seq<Entry>, provider: string,
                         models: seq<(string, ModelDetails)>) returns (r: Result<Registry, ConfigError>)
    requires Processed(before) == Ok(processed)
    ensures r == Processed(before + ProviderEntries(provider, models))
  {
    var reg := processed;
    var j := 0;
    assert before + ProviderEntries(provider, models[..0]) == before;
    while j < |models|
      invariant 0 <= j <= |models|
      invariant Processed(before + ProviderEntries(provider, models[..j])) == Ok(reg)
    {
      ProviderEntriesStep(before, provider, models, j);
      ProcessedSnoc(before + ProviderEntries(provider, models[..j]), Entry(provider, models[j].0, models[j].1));
      if models[j].1.contextWindow.None? {
        ProviderErrorStands(before, provider, models, j + 1);
        return Err(MissingContextWindow(provider, models[j].0));
      }
      reg := Insert(reg, models[j].0, Capabilities(models[j].1));
      j := j + 1;
    }
    assert models[..j] == models;
    r := Ok(reg);
  }

  /** ModelSelector._process_models: the loop over providers that fills the
      registry, stopping at the first KeyError. */
  method ProcessModels(config: Catalogue) returns (r: Result<Registry, ConfigError>)
    ensures r == Processed(Flatten(config))
  {
    var processed := EmptyRegistry;
    var i := 0;
    while i < |config|
      invariant 0 <= i <= |config|
      invariant Processed(Flatten(config[..i])) == Ok(processed)
    {
      var step := ProcessProvider(processed, Flatten(config[..i]), config[i].0, config[i].1);
      FlattenStep(config, i);
      if step.Err? {
        assert config[..i + 1] + config[i + 1..] == config;
        FlattenAppend(config[..i + 1], config[i + 1..]);
        ProcessedErrSticky(Flatten(config[..i + 1]), Flatten(config[i + 1..]));
        return step;
      }
      processed := step.value;
      i := i + 1;
    }
    assert config[..i] == config;
    r := Ok(processed);
  }

  /** The registry is built exactly when every model has a context window;
      otherwise the error names the first model without one. */
  lemma {:induction false} ProcessedSucceedsIff(es: seq<Entry>)
    ensures Processed(es).Ok? <==> forall k :: 0 <= k < |es| ==> es[k].details.contextWindow.Some?
    ensures Processed(es).Err? ==>
      exists k :: (0 <= k < |es| && es[k].details.contextWindow.None?
        && Processed(es).error == MissingContextWindow(es[k].provider, es[k].name)
        && forall k2 :: 0 <= k2 < k ==> es[k2].details.contextWindow.Some?)
  {
    if es != [] {
      var init := es[..|es| - 1];
      ProcessedSucceedsIff(init);
      assert forall k :: 0 <= k < |init| ==> init[k] == es[k];
    }
  }

  /** Every model of every provider is in the registry under its name, and
      no other key is. */
  lemma {:induction false} ProcessedKeys(es: seq<Entry>)
    requires Processed(es).Ok?
    ensures forall n :: n in Processed(es).value.entries <==> exists k :: 0 <= k < |es| && es[k].name == n
  {
    if es != [] {
      var init := es[..|es| - 1];
      var last := es[|es| - 1];
      assert es == init + [last];
      ProcessedSnoc(init, last);
      ProcessedKeys(init);
      var reg0 := Processed(init).value;
      var reg := Processed(es).value;
      assert reg.entries == reg0.entries[last.name := Capabilities(last.details)];
      forall n ensures n in reg.entries <==> exists k :: 0 <= k < |es| && es[k].name == n {
        if n in reg0.entries {
          var k :| 0 <= k < |init| && init[k].name == n;
          assert es[k].name == n;
        } else if n == last.name {
          assert es[|es| - 1].name == n;
        }
        if exists k :: 0 <= k < |es| && es[k].name == n {
          var k :| 0 <= k < |es| && es[k].name == n;
          if k < |init| {
            assert init[k].name == n;
          }
        }
      }
    }
  }

  /** A model's registry entry holds the capabilities of the LAST pair that
      carries its name; a missing description is "" and a missing use-case
      list is []. */
  lemma {:induction false} ProcessedLastWins(es: seq<Entry>, k: nat)
    requires Processed(es).Ok? && k < |es|
    requires forall k2 :: k < k2 < |es| ==> es[k2].name != es[k].name
    ensures es[k].details.contextWindow.Some?
    ensures es[k].name in Processed(es).value.entries
    ensures Processed(es).value.entries[es[k].name] == Capabilities(es[k].details)
  {
    var init := es[..|es| - 1];
    assert Processed(init).Ok?;
    if k < |es| - 1 {
      assert init[k] == es[k];
      ProcessedLastWins(init, k);
    }
  }

  /** A name repeated under a later provider overwrites the earlier entry's
      capabilities but keeps its place in the registry order. */
  lemma OverwriteKeepsPosition(r: Registry, name: string, caps: ModelCapabilities, k: nat)
    requires ValidRegistry(r) && name in r.entries && k < |r.order| && r.order[k] == name
    ensures Insert(r, name, caps).order[k] == name
    ensures Insert(r, name, caps).entries[name] == caps
    ensures |Insert(r, name, caps).order| == |r.order|
  {
  }

  // ---------------------------------------------------------------------
  // Scoring and selection (select_model)
  // ---------------------------------------------------------------------

  datatype Requirements = Requirements(minContextWindow: int, priority: string)

  /** The requirements used when the caller passes none. */
  const DefaultRequirements := Requirements(0, "balanced")

  /** Returned when no model meets the context-window requirement. */
  const DefaultModel := "llama-3.1-70b-versatile"

  /** The task categories and their keywords, in dictionary order. */
  const TaskKeywords: seq<(string, seq<string>)> := [
    ("code", ["code", "programming", "function", "debug", "development"]),
    ("vision", ["image", "visual", "picture", "photo", "diagram"]),
    ("math", ["math", "calculation", "equation", "numerical"]),
    ("creative", ["creative", "story", "write", "generate"]),
    ("analysis", ["analyze", "summarize", "extract", "understand"]),
    ("tool_use", ["api", "tool", "function calling", "integration"])
  ]

  function Effective(requirements: Option<Requirements>): Requirements
  {
    GetOr(requirements, DefaultRequirements)
  }

  /** `any(keyword in text for keyword in keywords)`. */
  predicate AnyKeywordIn(keywords: seq<string>, text: string)
  {
    exists k :: 0 <= k < |keywords| && Contains(text, keywords[k])
  }

  /** A category matches when one of its keywords is in the lower-cased query
      and one of its keywords is in the lower-cased, space-joined use cases. */
  predicate CategoryMatches(keywords: seq<string>, task: string, useCase: seq<string>)
  {
    AnyKeywordIn(keywords, Lower(task)) && AnyKeywordIn(keywords, Lower(Join(useCase, " ")))
  }

  /** Two points per matching category, summed over `categories`. */
  function TaskBonus(categories: seq<(string, seq<string>)>, task: string, useCase: seq<string>): nat
  {
    if categories == [] then 0
    else
      var last := categories[|categories| - 1];
      TaskBonus(categories[..|categories| - 1], task, useCase) + (if CategoryMatches(last.1, task, useCase) then 2 else 0)
  }

  /** 'speed' favours windows under 10000 tokens, 'quality' windows over 30000. */
  function PriorityBonus(priority: string, contextWindow: int): nat
  {
    if priority == "speed" then (if contextWindow < 10000 then 2 else 0)
    else if priority == "quality" then (if contextWindow > 30000 then 2 else 0)
    else 0
  }

  /** A model takes part in the selection only if its window is large enough. */
  predicate Survives(caps: ModelCapabilities, req: Requirements)
  {
    caps.contextWindow >= req.minContextWindow
  }

  /** The score of a model that takes part. */
  function ScoreValue(caps: ModelCapabilities, task: string, req: Requirements): int
  {
    1 + TaskBonus(TaskKeywords, task, caps.useCase) + PriorityBonus(req.priority, caps.contextWindow)
  }

  /** The `scores` dictionary: the surviving names, in registry order, with
      their scores. */
  function ScoresOf(entries: map<string, ModelCapabilities>, names: seq<string>, task: string, req: Requirements)
    : (s: seq<(string, int)>)
    requires forall n :: n in names ==> n in entries
    ensures |s| <= |names|
    ensures forall i :: 0 <= i < |s| ==>
      (s[i].0 in names && Survives(entries[s[i].0], req) && s[i].1 == ScoreValue(entries[s[i].0], task, req))
  {
    if names == [] then []
    else
      var last := names[|names| - 1];
      ScoresOf(entries, names[..|names| - 1], task, req)
        + (if Survives(entries[last], req) then [(last, ScoreValue(entries[last], task, req))] else [])
  }

  /** Every name that meets the window requirement has its entry in the
      score table. */
  lemma {:induction false} ScoresOfComplete(entries: map<string, ModelCapabilities>, names: seq<string>, task: string,
                                            req: Requirements, n: string)
    requires forall m :: m in names ==> m in entries
    requires n in names && Survives(entries[n], req)
    ensures exists i :: 0 <= i < |ScoresOf(entries, names, task, req)| && ScoresOf(entries, names, task, req)[i].0 == n
  {
    var init, last := names[..|names| - 1], names[|names| - 1];
    var s0 := ScoresOf(entries, init, task, req);
    var s := ScoresOf(entries, names, task, req);
    assert s[..|s0|] == s0;
    if n == last {
      assert s[|s0|].0 == n;
    } else {
      assert n in init by {
        var k :| 0 <= k < |names| && names[k] == n;
        assert k < |names| - 1 && init[k] == n;
      }
      ScoresOfComplete(entries, init, task, req, n);
      var i :| 0 <= i < |s0| && s0[i].0 == n;
      assert s[i].0 == n;
    }
  }

  /** The registry positions of the names that meet the window requirement. */
  function SurvivorPositions(entries: map<string, ModelCapabilities>, names: seq<string>, req: Requirements): seq<nat>
    requires forall m :: m in names ==> m in entries
  {
    if names == [] then []
    else
      SurvivorPositions(entries, names[..|names| - 1], req)
        + (if Survives(entries[names[|names| - 1]], req) then [|names| - 1] else [])
  }

  /** Entry `i` of the table comes from name `position[i]`, and the
      positions strictly increase along the table. */
  predicate IndexedBy(s: seq<(string, int)>, names: seq<string>, position: seq<nat>)
  {
    && |position| == |s|
    && (forall i :: 0 <= i < |s| ==> position[i] < |names| && names[position[i]] == s[i].0)
    && (forall i, j :: 0 <= i < j < |position| ==> position[i] < position[j])
  }

  /** The score table keeps registry order: its entries come from strictly
      increasing positions of the registry. */
  lemma {:induction false} ScoresOfOrdered(entries: map<string, ModelCapabilities>, names: seq<string>, task: string,
                                           req: Requirements)
    requires forall m :: m in names ==> m in entries
    ensures IndexedBy(ScoresOf(entries, names, task, req), names, SurvivorPositions(entries, names, req))
  {
    if names != [] {
      var init := names[..|names| - 1];
      ScoresOfOrdered(entries, init, task, req);
      var s0, p0 := ScoresOf(entries, init, task, req), SurvivorPositions(entries, init, req);
      var s, p := ScoresOf(entries, names, task, req), SurvivorPositions(entries, names, req);
      assert s[..|s0|] == s0 && p[..|p0|] == p0;
      forall i | 0 <= i < |s0| ensures p[i] < |names| && names[p[i]] == s[i].0 {
        assert names[p0[i]] == init[p0[i]];
      }
      assert forall i :: 0 <= i < |p0| ==> p0[i] < |init|;
    }
  }

  /** The position of the first maximal score (what `max` returns on ties). */
  function FirstMaxIndex(scores: seq<(string, int)>): (k: nat)
    requires scores != []
    ensures k < |scores|
    ensures forall i :: 0 <= i < |scores| ==> scores[i].1 <= scores[k].1
    ensures forall i :: 0 <= i < k ==> scores[i].1 < scores[k].1
  {
    if |scores| == 1 then 0
    else
      var k := FirstMaxIndex(scores[..|scores| - 1]);
      if scores[|scores| - 1].1 > scores[k].1 then |scores| - 1 else k
  }

  function SelectFrom(entries: map<string, ModelCapabilities>, names: seq<string>, task: string, req: Requirements): string
    requires forall n :: n in names ==> n in entries
  {
    var scores := ScoresOf(entries, names, task, req);
    if scores == [] then DefaultModel else scores[FirstMaxIndex(scores)].0
  }

  /** The model `select_model` returns for this registry, query and requirements. */
  function Selected(models: Registry, task: string, requirements: Option<Requirements>): string
    requires ValidRegistry(models)
  {
    SelectFrom(models.entries, models.order, task, Effective(requirements))
  }

  /** Python's `max(scores.items(), key=...)`: the first entry with the
      largest score. */
  method ArgMaxFirst(scores: seq<(string, int)>) returns (best: nat)
    requires scores != []
    ensures best < |scores|
    ensures forall i :: 0 <= i < |scores| ==> scores[i].1 <= scores[best].1
    ensures forall i :: 0 <= i < best ==> scores[i].1 < scores[best].1
  {
    best := 0;
    var k := 1;
    while k < |scores|
      invariant 1 <= k <= |scores| && best < k
      invariant forall i :: 0 <= i < k ==> scores[i].1 <= scores[best].1
      invariant forall i :: 0 <= i < best ==> scores[i].1 < scores[best].1
    {
      if scores[k].1 > scores[best].1 {
        best := k;
      }
      k := k + 1;
    }
  }

  /** One pass of the loop over models in select_model: `None` when the
      window is too small (the `continue`), otherwise the accumulated score. */
  method ScoreModel(capabilities: ModelCapabilities, taskDescription: string, req: Requirements)
    returns (score: Option<int>)
    ensures score.Some? <==> Survives(capabilities, req)
    ensures score.Some? ==> score.value == ScoreValue(capabilities, taskDescription, req)
  {
    var s := 0;
    if capabilities.contextWindow >= req.minContextWindow {
      s := s + 1;
    } else {
      return None;
    }
    var t := 0;
    while t < |TaskKeywords|
      invariant 0 <= t <= |TaskKeywords|
      invariant s == 1 + TaskBonus(TaskKeywords[..t], taskDescription, capabilities.useCase)
    {
      var keywords := TaskKeywords[t].1;
      assert TaskKeywords[..t + 1][..t] == TaskKeywords[..t];
      if AnyKeywordIn(keywords, Lower(taskDescription)) {
        if AnyKeywordIn(keywords, Lower(Join(capabilities.useCase, " "))) {
          s := s + 2;
        }
      }
      t := t + 1;
    }
    assert TaskKeywords[..t] == TaskKeywords;
    if req.priority == "speed" {
      if capabilities.contextWindow < 10000 {
        s := s + 2;
      }
    } else if req.priority == "quality" {
      if capabilities.contextWindow > 30000 {
        s := s + 2;
      }
    }
    score := Some(s);
  }

  /** ModelSelector.select_model: score every model that meets the context
      window requirement, then return the best one, or the default model. */
  method SelectModel(models: Registry, taskDescription: string, requirements: Option<Requirements>)
    returns (name: string)
    requires ValidRegistry(models)
    ensures name == Selected(models, taskDescription, requirements)
  {
    var req := if requirements.None? then Requirements(0, "balanced") else requirements.value;
    var scores: seq<(string, int)> := [];
    var i := 0;
    while i < |models.order|
      invariant 0 <= i <= |models.order|
      invariant scores == ScoresOf(models.entries, models.order[..i], taskDescription, req)
    {
      var modelName := models.order[i];
      assert models.order[..i + 1][..i] == models.order[..i];
      var score := ScoreModel(models.entries[modelName], taskDescription, req);
      if score.Some? {
        scores := scores + [(modelName, score.value)];
      }
      i := i + 1;
    }
    assert models.order[..i] == models.order;
    if scores == [] {
      return "llama-3.1-70b-versatile";
    }
    var best := ArgMaxFirst(scores);
    assert best == FirstMaxIndex(scores) by {
      FirstMaxUnique(scores, best);
    }
    name := scores[best].0;
  }

  /** The first-maximum position is determined by its two properties. */
  lemma FirstMaxUnique(scores: seq<(string, int)>, k: nat)
    requires k < |scores|
    requires forall i :: 0 <= i < |scores| ==> scores[i].1 <= scores[k].1
    requires forall i :: 0 <= i < k ==> scores[i].1 < scores[k].1
    ensures k == FirstMaxIndex(scores)
  {
    var m := FirstMaxIndex(scores);
    assert !(m < k) && !(k < m);
  }

  /** Every score lies between 1 and 15: one point for taking part, at most
      two for each of the six categories and two for the priority. */
  lemma ScoreBounds(caps: ModelCapabilities, task: string, req: Requirements)
    ensures 1 <= ScoreValue(caps, task, req) <= 15
  {
    TaskBonusBound(TaskKeywords, task, caps.useCase);
  }

  lemma {:induction false} TaskBonusBound(categories: seq<(string, seq<string>)>, task: string, useCase: seq<string>)
    ensures TaskBonus(categories, task, useCase) <= 2 * |categories|
  {
    if categories != [] {
      TaskBonusBound(categories[..|categories| - 1], task, useCase);
    }
  }

  /** The default model is returned exactly when no model meets the context
      window requirement (an empty registry included); otherwise the result
      is a registry key that meets it. */
  lemma {:induction false} SelectFromDefault(entries: map<string, ModelCapabilities>, names: seq<string>, task: string, req: Requirements)
    requires forall n :: n in names ==> n in entries
    ensures ScoresOf(entries, names, task, req) == [] <==> forall n :: n in names ==> !Survives(entries[n], req)
  {
    if names != [] {
      var init := names[..|names| - 1];
      SelectFromDefault(entries, init, task, req);
      assert forall n :: n in names ==> n in init || n == names[|names| - 1];
    }
  }

  /** No model scores higher than the selected one. */
  lemma {:induction false} SelectFromIsBest(entries: map<string, ModelCapabilities>, names: seq<string>, task: string, req: Requirements, n: string)
    requires forall m :: m in names ==> m in entries
    requires n in names && Survives(entries[n], req)
    ensures ScoresOf(entries, names, task, req) != []
    ensures ScoreValue(entries[n], task, req) <= ScoreValue(entries[SelectFrom(entries, names, task, req)], task, req)
  {
    var scores := ScoresOf(entries, names, task, req);
    var init := names[..|names| - 1];
    var last := names[|names| - 1];
    if n == last {
      assert scores[|scores| - 1].0 == n;
    } else {
      assert n in init;
      SelectFromIsBest(entries, init, task, req, n);
      var s0 := ScoresOf(entries, init, task, req);
      assert s0[FirstMaxIndex(s0)] in scores;
      assert scores[..|s0|] == s0;
    }
  }

  /** Ties go to the model that comes first in registry order: every model
      before the selected one that takes part scores strictly less. */
  lemma {:induction false} SelectFromTieBreak(entries: map<string, ModelCapabilities>, names: seq<string>, task: string, req: Requirements, a: nat, b: nat)
    requires forall m :: m in names ==> m in entries
    requires Distinct(names)
    requires a < b < |names| && names[b] == SelectFrom(entries, names, task, req)
    requires ScoresOf(entries, names, task, req) != []
    requires Survives(entries[names[a]], req)
    ensures ScoreValue(entries[names[a]], task, req) < ScoreValue(entries[names[b]], task, req)
  {
    var scores := ScoresOf(entries, names, task, req);
    var init := names[..|names| - 1];
    var last := names[|names| - 1];
    var s0 := ScoresOf(entries, init, task, req);
    var k := FirstMaxIndex(scores);
    if s0 != [] && k < |s0| {
      // the selection was already made among the earlier names
      assert scores[..|s0|] == s0;
      FirstMaxUnique(s0, k);
      assert names[b] == s0[k].0 && s0[k].0 in init;
      assert b < |init|;
      SelectFromTieBreak(entries, init, task, req, a, b);
    } else {
      // the last name was selected: it beats every earlier score strictly
      assert scores[k].0 == last;
      assert b == |names| - 1;
      assert names[a] in init;
      if s0 != [] {
        SelectFromIsBest(entries, init, task, req, names[a]);
        assert scores[..|s0|] == s0;
        assert scores[FirstMaxIndex(s0)].1 < scores[k].1;
      } else {
        SelectFromDefault(entries, init, task, req);
      }
    }
  }

  /** select_model, stated on the registry: the default model when no entry
      meets the context window, otherwise a registry key that meets it, with
      the highest score, and before it in registry order only strictly lower
      scores. With no requirements the behaviour is that of window 0 and
      priority 'balanced'. */
  lemma SelectedSpec(models: Registry, task: string, requirements: Option<Requirements>)
    requires ValidRegistry(models)
    ensures var req := Effective(requirements);
      var name := Selected(models, task, requirements);
      && Selected(models, task, requirements) == Selected(models, task, Some(if requirements.None? then Requirements(0, "balanced") else requirements.value))
      && ((forall n :: n in models.entries ==> !Survives(models.entries[n], req)) ==> name == DefaultModel)
      && ((exists n :: n in models.entries && Survives(models.entries[n], req)) ==>
          && name in models.entries
          && Survives(models.entries[name], req)
          && (forall n :: n in models.entries && Survives(models.entries[n], req) ==>
                ScoreValue(models.entries[n], task, req) <= ScoreValue(models.entries[name], task, req))
          && (forall a, b :: 0 <= a < b < |models.order| && models.order[b] == name && Survives(models.entries[models.order[a]], req) ==>
                ScoreValue(models.entries[models.order[a]], task, req) < ScoreValue(models.entries[name], task, req)))
  {
    var req := Effective(requirements);
    var name := Selected(models, task, requirements);
    SelectFromDefault(models.entries, models.order, task, req);
    if exists n :: n in models.entries && Survives(models.entries[n], req) {
      var scores := ScoresOf(models.entries, models.order, task, req);
      assert scores != [];
      assert scores[FirstMaxIndex(scores)].0 == name;
      forall n | n in models.entries && Survives(models.entries[n], req)
        ensures ScoreValue(models.entries[n], task, req) <= ScoreValue(models.entries[name], task, req)
      {
        SelectFromIsBest(models.entries, models.order, task, req, n);
      }
      forall a, b | 0 <= a < b < |models.order| && models.order[b] == name && Survives(models.entries[models.order[a]], req)
        ensures ScoreValue(models.entries[models.order[a]], task, req) < ScoreValue(models.entries[name], task, req)
      {
        SelectFromTieBreak(models.entries, models.order, task, req, a, b);
      }
    }
  }

  /** A model whose context window is below the minimum is never returned,
      unless it happens to be named like the default model and nothing survives. */
  lemma NarrowModelNeverSelected(models: Registry, task: string, requirements: Option<Requirements>, n: string)
    requires ValidRegistry(models)
    requires n in models.entries && !Survives(models.entries[n], Effective(requirements))
    requires n != DefaultModel
    ensures Selected(models, task, requirements) != n
  {
    SelectedSpec(models, task, requirements);
  }

  /** With priority 'quality', of two models alike but for their windows,
      one above 30000 tokens and one at most 30000, the larger is chosen. */
  lemma QualityPrefersLargeWindow(task: string, big: string, small: string, useCase: seq<string>, bigWindow: int, smallWindow: int)
    requires big != small && bigWindow > 30000 && 0 <= smallWindow <= 30000
    ensures var models := Registry([small, big], map[small := ModelCapabilities(smallWindow, "", useCase),
                                                     big := ModelCapabilities(bigWindow, "", useCase)]);
      ValidRegistry(models) && Selected(models, task, Some(Requirements(0, "quality"))) == big
  {
    var models := Registry([small, big], map[small := ModelCapabilities(smallWindow, "", useCase),
                                             big := ModelCapabilities(bigWindow, "", useCase)]);
    var req := Requirements(0, "quality");
    assert ValidRegistry(models);
    var scores := ScoresOf(models.entries, models.order, task, req);
    assert models.order[..1] == [small] && [small][..0] == [];
    assert ScoresOf(models.entries, [small], task, req) == [(small, ScoreValue(models.entries[small], task, req))];
    assert scores == [(small, ScoreValue(models.entries[small], task, req)), (big, ScoreValue(models.entries[big], task, req))];
  }
}
